/** The proxy can always go on: a handler is never stuck, a whole message reaches its handler and gets its
    answer, and a live direction of a bridge can deliver everything that was sent. */
module RendezvousProgress {
  import opened Messages
  import opened Framing
  import opened Registry
  import opened Protocol
  import opened Rendezvous
  import opened RendezvousInvariant
  import opened RendezvousSteps
  import opened RendezvousTheorems
  import opened Refinement
  import opened RendezvousOwnership

  // ---------------------------------------------------------------- runs

  lemma {:induction false} RunConcat(s: State, a: seq<Action>, b: seq<Action>)
    requires CanRun(s, a) && CanRun(Run(s, a), b)
    ensures CanRun(s, a + b) && Run(s, a + b) == Run(Run(s, a), b)
    decreases |a|
  {
    hide Step, Enabled;
    if a == [] {
      assert a + b == b;
    } else {
      RunConcat(Step(s, a[0]), a[1..], b);
      assert (a + b)[1..] == a[1..] + b;
    }
  }

  lemma StillReachable(s: State, actions: seq<Action>)
    requires Reachable(s) && CanRun(s, actions)
    ensures Reachable(Run(s, actions))
  {
    hide Step, Enabled;
    var before :| CanRun(INITIAL, before) && Run(INITIAL, before) == s;
    RunConcat(INITIAL, before, actions);
  }

  lemma OneStep(s: State, a: Action)
    requires Enabled(s, a)
    ensures CanRun(s, [a]) && Run(s, [a]) == Step(s, a)
  {
    hide Step, Enabled;
    var next := Step(s, a);
    assert [a][1..] == [];
    assert CanRun(next, []) && Run(next, []) == next;
  }

  // ---------------------------------------------------------------- handlers

  /** How many steps a handler can still make. */
  function StepsLeft(t: Thread): nat {
    match t
    case Idle => 0
    case Unwinding(_, _) => 1
    case OpenBridge(_, _) => 1
    case FirstMessage(_, _) => 2
    case SendId(_) => 2
    case SendNotFound(_) => 2
    case SendStart(_, _) => 2
    case SendFound(_, _) => 3
    case NextMessage(_, _) => 4
  }

  /** In no reachable state is the handler stuck: whatever the other threads and the peers did, its next
      step can be made, and brings it closer to its end. */
  lemma HandlerNeverStuck(s: State, verdict: Verdict, now: int)
    requires Reachable(s) && !s.thread.Idle? && s.clock <= now
    requires verdict.Throws? ==> Fits(Message(DISCONNECT, verdict.what), BUFFER_SIZE)
    ensures Enabled(s, Proceed(verdict, now))
    ensures StepsLeft(Step(s, Proceed(verdict, now)).thread) < StepsLeft(s.thread)
  {
    hide Reachable, Inv, Step, Enabled, ThreadOk;
    ReachableInv(s);
    InvParts(s);
    HandlerKnown(s);
    ProceedEnabled(s, verdict, now);
    StepsDown(s, verdict, now);
  }

  lemma ProceedEnabled(s: State, verdict: Verdict, now: int)
    requires !s.thread.Idle? && s.thread.c in s.conns && s.clock <= now
    requires s.thread.SendFound? || s.thread.SendStart? || s.thread.OpenBridge? ==> s.thread.streamer in s.conns
    requires verdict.Throws? ==> Fits(Message(DISCONNECT, verdict.what), BUFFER_SIZE)
    ensures Enabled(s, Proceed(verdict, now))
  {
  }

  lemma HandlerKnown(s: State)
    requires ThreadOk(s) && !s.thread.Idle?
    ensures s.thread.c in s.conns
    ensures s.thread.SendFound? || s.thread.SendStart? || s.thread.OpenBridge? ==> s.thread.streamer in s.conns
  {
    hide Ended, Grammar, Kinds, ReadTo, Registrant, Lossy, Whole;
    assert s.thread.c in Main(s.thread);
    if Node(s.thread) != {} { assert s.thread.streamer in Node(s.thread); }
  }

  lemma StepsDown(s: State, verdict: Verdict, now: int)
    requires Enabled(s, Proceed(verdict, now))
    ensures StepsLeft(Step(s, Proceed(verdict, now)).thread) < StepsLeft(s.thread)
  {
    hide Said, NotExpected, Relayed, TakeHeader, TakeBody, ExpirationEvents;
  }

  /** So it is done after at most four steps. */
  lemma {:induction false} HandlerFinishes(s: State) returns (actions: seq<Action>)
    requires Reachable(s)
    ensures |actions| <= StepsLeft(s.thread) <= 4 && CanRun(s, actions) && Run(s, actions).thread.Idle?
    ensures forall a :: a in actions ==> a == Proceed(Rejected, s.clock)
    decreases StepsLeft(s.thread)
  {
    hide Reachable, Step, Enabled;
    if s.thread.Idle? {
      actions := [];
    } else {
      var a := Proceed(Rejected, s.clock);
      HandlerNeverStuck(s, Rejected, s.clock);
      OneStep(s, a);
      StillReachable(s, [a]);
      SameClock(s);
      var rest := HandlerFinishes(Step(s, a));
      actions := [a] + rest;
      RunConcat(s, [a], rest);
    }
  }

  lemma SameClock(s: State)
    requires Enabled(s, Proceed(Rejected, s.clock))
    ensures Step(s, Proceed(Rejected, s.clock)).clock == s.clock
  {
    hide HandlerStep, Relayed, TakeHeader, TakeBody, ExpirationEvents;
  }

  // ---------------------------------------------------------------- messages

  /** A whole message at the front of what a connection has not consumed, perhaps with its header already
      read: the next reads bring exactly this message to the handler. */
  lemma MessageReachesHandler(s: State, c: ConnId, m: Message) returns (actions: seq<Action>)
    requires Reachable(s) && s.thread.Idle? && c in s.armed && c in s.conns
    requires s.conns[c].taken <= |s.conns[c].sent| && EncodeFrame(m) <= Unconsumed(s.conns[c], s.armed[c])
    requires Fits(m, Limit(s.armed[c].gate))
    ensures CanRun(s, actions) && |actions| <= 2
    ensures var s' := Run(s, actions);
            && s'.thread == (if s.armed[c].gate.BeforeLogin? then FirstMessage(c, m) else NextMessage(c, m))
            && c in s'.conns && s'.conns[c].taken <= |s'.conns[c].sent|
            && s'.conns == s.conns[c := s.conns[c].(taken := s'.conns[c].taken, requests := s.conns[c].requests + [m])]
            && EncodeFrame(m) + s'.conns[c].sent[s'.conns[c].taken..] == Unconsumed(s.conns[c], s.armed[c])
            && s' == s.(conns := s'.conns, armed := s.armed - {c}, thread := s'.thread)
  {
    hide Reachable, Inv, Step, Enabled, EncodeFrame, ArmedConn, Unconsumed, ThreadOk, LinksOk, Spoken, Exclusive;
    ReachableInv(s);
    InvParts(s);
    ArmedAt(s, c);
    if s.armed[c].header.None? {
      HeaderComes(s, c, m);
      OneStep(s, HeaderArrives(c, []));
      var s1 := Step(s, HeaderArrives(c, []));
      BodyComes(s1, c, m);
      OneStep(s1, BodyArrives(c));
      actions := [HeaderArrives(c, [])] + [BodyArrives(c)];
      RunConcat(s, [HeaderArrives(c, [])], [BodyArrives(c)]);
      var s2 := Step(s1, BodyArrives(c));
      assert s2.armed == s.armed - {c};
    } else {
      HeaderWas(s.conns[c], s.armed[c], m);
      BodyComes(s, c, m);
      OneStep(s, BodyArrives(c));
      actions := [BodyArrives(c)];
    }
  }

  lemma HeaderWas(conn: Conn, arm: Arm, m: Message)
    requires ArmedConn(conn, arm) && arm.header.Some?
    requires conn.taken <= |conn.sent| && EncodeFrame(m) <= Unconsumed(conn, arm)
    requires Fits(m, Limit(arm.gate))
    ensures arm.header == Some(HeaderOf(m))
  {
    hide EncodeAll, Deserialize, Talk, ReadTo;
    var h, input := arm.header.value, Unconsumed(conn, arm);
    BufferSizeIsSizeT();
    DeserializeHeaderBytes(h, [], Limit(arm.gate));
    DeserializeHeaderBytes(HeaderOf(m), [], Limit(arm.gate));
    assert input[..HEADER_SIZE] == HeaderBytes(h) && input[..HEADER_SIZE] == HeaderBytes(HeaderOf(m));
    assert HeaderBytes(h) + [] == HeaderBytes(h);
  }

  lemma HeaderComes(s: State, c: ConnId, m: Message)
    requires s.thread.Idle? && c in s.armed && c in s.conns && s.armed[c].header.None?
    requires s.conns[c].taken <= |s.conns[c].sent| && EncodeFrame(m) <= Unconsumed(s.conns[c], s.armed[c])
    requires Fits(m, Limit(s.armed[c].gate))
    ensures Enabled(s, HeaderArrives(c, []))
    ensures var conn := s.conns[c];
            Step(s, HeaderArrives(c, [])) == s.(conns := s.conns[c := conn.(taken := conn.taken + HEADER_SIZE)],
                                                armed := s.armed[c := s.armed[c].(header := Some(HeaderOf(m)))])
    ensures var conn, arm := s.conns[c], s.armed[c];
            conn.taken + HEADER_SIZE <= |conn.sent|
            && Unconsumed(conn.(taken := conn.taken + HEADER_SIZE), arm.(header := Some(HeaderOf(m))))
               == Unconsumed(conn, arm)
  {
    hide Deserialize, HeaderBytes, HandlerStep, TakeBody, Relayed, ExpirationEvents;
    var conn := s.conns[c];
    var input := Unconsumed(conn, s.armed[c]);
    assert input == conn.sent[conn.taken..];
    var piece := conn.sent[conn.taken..conn.taken + HEADER_SIZE];
    assert piece == input[..HEADER_SIZE] == HeaderBytes(HeaderOf(m));
    BufferSizeIsSizeT();
    DeserializeHeaderBytes(HeaderOf(m), [], Limit(s.armed[c].gate));
    assert HeaderBytes(HeaderOf(m)) + [] == HeaderBytes(HeaderOf(m));
  }

  lemma BodyComes(s: State, c: ConnId, m: Message)
    requires s.thread.Idle? && c in s.armed && c in s.conns && s.armed[c].header == Some(HeaderOf(m))
    requires s.conns[c].taken <= |s.conns[c].sent| && EncodeFrame(m) <= Unconsumed(s.conns[c], s.armed[c])
    ensures Enabled(s, BodyArrives(c))
    ensures var conn, s' := s.conns[c], Step(s, BodyArrives(c));
            && conn.taken + |m.content| <= |conn.sent|
            && s' == s.(conns := s.conns[c := conn.(taken := conn.taken + |m.content|,
               requests := conn.requests + [m])],
                        armed := s.armed - {c},
                        thread := if s.armed[c].gate.BeforeLogin? then FirstMessage(c, m) else NextMessage(c, m))
            && EncodeFrame(m) + conn.sent[conn.taken + |m.content|..] == Unconsumed(conn, s.armed[c])
  {
    hide HandlerStep, TakeHeader, Relayed, ExpirationEvents, HeaderBytes, EncodeFrame;
    var conn := s.conns[c];
    assert Unconsumed(conn, s.armed[c]) == HeaderBytes(HeaderOf(m)) + conn.sent[conn.taken..];
    BodyThere(m, conn.sent, conn.taken);
  }

  lemma BodyThere(m: Message, sent: seq<byte>, taken: nat)
    requires taken <= |sent| && EncodeFrame(m) <= HeaderBytes(HeaderOf(m)) + sent[taken..]
    ensures taken + |m.content| <= |sent| && sent[taken..taken + |m.content|] == m.content
    ensures EncodeFrame(m) + sent[taken + |m.content|..] == HeaderBytes(HeaderOf(m)) + sent[taken..]
  {
    hide HeaderBytes;
    var header, rest := HeaderBytes(HeaderOf(m)), sent[taken..];
    assert (header + rest)[HEADER_SIZE..][..|m.content|] == m.content;
    assert (header + rest)[HEADER_SIZE..] == rest;
    assert rest == m.content + sent[taken + |m.content|..];
    assert header + (m.content + sent[taken + |m.content|..]) == header + m.content + sent[taken + |m.content|..];
  }

  predicate Unexpected(m: Message) {
    m.kind != REGISTER_STREAMER && m.kind != FIND_STREAMER && Fits(m, BUFFER_SIZE)
  }

  /** Messages that are neither registrations nor finds, sent by a logged-in client that is there to be
      answered, can all be answered, in order, and the session then reads on. */
  lemma {:induction false} AllAnswered(s: State, c: ConnId, ms: seq<Message>) returns (actions: seq<Action>)
    requires Reachable(s) && s.thread.Idle? && c in s.armed && c in s.conns && !s.conns[c].broken
    requires s.armed[c].gate.AfterLogin? && s.conns[c].taken <= |s.conns[c].sent|
    requires EncodeAll(ms) <= Unconsumed(s.conns[c], s.armed[c]) && forall m :: m in ms ==> Unexpected(m)
    ensures CanRun(s, actions) && c in Run(s, actions).conns && Run(s, actions).thread.Idle?
    ensures var s' := Run(s, actions);
            && s'.conns[c].replies == s.conns[c].replies + Refusals(ms)
            && s'.conns[c].requests == s.conns[c].requests + ms
            && c in s'.armed && s'.armed[c].gate.AfterLogin? && !s'.conns[c].broken
    decreases |ms|
  {
    hide Reachable, Step, Enabled, EncodeFrame, NotExpected, Unconsumed, EncodeAll, Run;
    if ms == [] {
      actions := [];
      NoSteps(s);
    } else {
      assert ms[0] in ms;
      FirstOf(ms, Unconsumed(s.conns[c], s.armed[c]));
      var first := OneAnswered(s, c, ms[0]);
      var s1 := Run(s, first);
      StillReachable(s, first);
      RestOf(ms, Unconsumed(s.conns[c], s.armed[c]), Unconsumed(s1.conns[c], s1.armed[c]));
      assert forall q :: q in ms[1..] ==> q in ms;
      var rest := AllAnswered(s1, c, ms[1..]);
      actions := first + rest;
      RunConcat(s, first, rest);
      Tail(s.conns[c].replies, s.conns[c].requests, ms);
    }
  }

  function Refusals(ms: seq<Message>): seq<Message> {
    seq(|ms|, k requires 0 <= k < |ms| => NotExpected(ms[k].kind))
  }

  lemma Tail(replies: seq<Message>, requests: seq<Message>, ms: seq<Message>)
    requires ms != []
    ensures replies + [NotExpected(ms[0].kind)] + Refusals(ms[1..]) == replies + Refusals(ms)
    ensures requests + [ms[0]] + ms[1..] == requests + ms
  {
    hide NotExpected;
    assert Refusals(ms) == [NotExpected(ms[0].kind)] + Refusals(ms[1..]);
  }

  lemma NoSteps(s: State)
    ensures CanRun(s, []) && Run(s, []) == s
  {
  }

  lemma OneAnswered(s: State, c: ConnId, m: Message) returns (actions: seq<Action>)
    requires Reachable(s) && s.thread.Idle? && c in s.armed && c in s.conns && !s.conns[c].broken
    requires s.armed[c].gate.AfterLogin? && s.conns[c].taken <= |s.conns[c].sent|
    requires EncodeFrame(m) <= Unconsumed(s.conns[c], s.armed[c]) && Unexpected(m)
    ensures CanRun(s, actions)
    ensures var s' := Run(s, actions);
            && s'.thread.Idle? && c in s'.conns && c in s'.armed && s'.armed[c] == Arm(AfterLogin, None)
            && s'.conns[c].replies == s.conns[c].replies + [NotExpected(m.kind)]
            && s'.conns[c].requests == s.conns[c].requests + [m] && !s'.conns[c].broken
            && s'.conns[c].taken <= |s'.conns[c].sent|
            && EncodeFrame(m) + Unconsumed(s'.conns[c], s'.armed[c]) == Unconsumed(s.conns[c], s.armed[c])
  {
    hide Reachable, Step, Enabled, EncodeFrame, NotExpected, Unconsumed, Run;
    var first := MessageReachesHandler(s, c, m);
    var s1 := Run(s, first);
    var a := Proceed(Rejected, s1.clock);
    StillReachable(s, first);
    HandlerNeverStuck(s1, Rejected, s1.clock);
    OneStep(s1, a);
    AnswerNow(s1, c, m);
    NothingPartial(Step(s1, a).conns[c], Step(s1, a).armed[c]);
    actions := first + [a];
    RunConcat(s, first, [a]);
  }

  lemma FirstOf(ms: seq<Message>, input: seq<byte>)
    requires ms != [] && EncodeAll(ms) <= input
    ensures EncodeFrame(ms[0]) <= input
  {
    hide EncodeFrame;
    assert EncodeFrame(ms[0]) <= EncodeAll(ms);
  }

  lemma RestOf(ms: seq<Message>, input: seq<byte>, rest: seq<byte>)
    requires ms != [] && EncodeAll(ms) <= input && input == EncodeFrame(ms[0]) + rest
    ensures EncodeAll(ms[1..]) <= rest
  {
    hide EncodeFrame;
    assert EncodeAll(ms[1..]) == EncodeAll(ms)[|EncodeFrame(ms[0])|..];
    assert rest == input[|EncodeFrame(ms[0])|..];
  }

  lemma NothingPartial(conn: Conn, arm: Arm)
    requires arm.header.None? && conn.taken <= |conn.sent|
    ensures Unconsumed(conn, arm) == conn.sent[conn.taken..]
  {
  }

  lemma AnswerNow(s: State, c: ConnId, m: Message)
    requires s.thread == NextMessage(c, m) && Enabled(s, Proceed(Rejected, s.clock)) && Unexpected(m)
    requires c in s.conns && !s.conns[c].broken
    ensures Step(s, Proceed(Rejected, s.clock)) ==
            s.(conns := s.conns[c := Said(s.conns[c], NotExpected(m.kind))], thread := Idle,
               armed := s.armed[c := Arm(AfterLogin, None)])
  {
    hide Said, NotExpected, Relayed, TakeHeader, TakeBody, ExpirationEvents, HandleFirst;
  }

  // ---------------------------------------------------------------- relays

  function RelayOf(up: bool, i: nat, n: nat): Action {
    if up then RelayUp(i, n, n, true) else RelayDown(i, n, n, true)
  }

  /** The direction can go on relaying: it lives and its receiver is there. */
  ghost predicate Ready(s: State, i: nat, up: bool) {
    && i < |s.links| && s.links[i].one in s.conns && s.links[i].two in s.conns && s.links[i].one != s.links[i].two
    && Live(s.links[i], up) && !s.conns[Receiver(s.links[i], up)].broken
    && s.conns[Sender(s.links[i], up)].taken <= |s.conns[Sender(s.links[i], up)].sent|
  }

  /** From `s` to `s'` the direction has relayed whatever was there, and nothing was sent meanwhile. */
  ghost predicate RelayedAll(s: State, s': State, i: nat, up: bool)
    requires Ready(s, i, up)
  {
    var from, to := Sender(s.links[i], up), Receiver(s.links[i], up);
    && Ready(s', i, up) && s'.thread.Idle?
    && Sender(s'.links[i], up) == from && Receiver(s'.links[i], up) == to
    && s'.conns[from] == s.conns[from].(taken := |s.conns[from].sent|)
    && s'.conns[to] == s.conns[to].(out := s.conns[to].out + s.conns[from].sent[s.conns[from].taken..])
  }

  lemma {:induction false} RelayRounds(s: State, i: nat, up: bool) returns (actions: seq<Action>)
    requires s.thread.Idle? && Ready(s, i, up)
    ensures CanRun(s, actions) && RelayedAll(s, Run(s, actions), i, up)
    ensures var from := s.conns[Sender(s.links[i], up)];
            |actions| == Relays.Turns(|from.sent| - from.taken, Relays.MAX_DATA_LENGTH)
    decreases |s.conns[Sender(s.links[i], up)].sent| - s.conns[Sender(s.links[i], up)].taken
  {
    hide Step, Enabled, Relays.Turns;
    var from, to := s.conns[Sender(s.links[i], up)], s.conns[Receiver(s.links[i], up)];
    var left := |from.sent| - from.taken;
    Relays.OneMore(left, Relays.MAX_DATA_LENGTH);
    if left == 0 {
      actions := [];
      assert to.out + from.sent[from.taken..] == to.out;
    } else {
      var n := if left < Relays.MAX_DATA_LENGTH then left else Relays.MAX_DATA_LENGTH;
      OneRound(s, i, up, n);
      OneStep(s, RelayOf(up, i, n));
      var s1 := Step(s, RelayOf(up, i, n));
      var rest := RelayRounds(s1, i, up);
      actions := [RelayOf(up, i, n)] + rest;
      RunConcat(s, [RelayOf(up, i, n)], rest);
      TwoPieces(from.sent, from.taken, n, to.out);
    }
  }

  lemma TwoPieces(sent: seq<byte>, taken: nat, n: nat, out: seq<byte>)
    requires taken + n <= |sent|
    ensures out + sent[taken..taken + n] + sent[taken + n..] == out + sent[taken..]
  {
    assert sent[taken..taken + n] + sent[taken + n..] == sent[taken..];
  }

  lemma OneRound(s: State, i: nat, up: bool, n: nat)
    requires s.thread.Idle? && Ready(s, i, up) && 1 <= n <= Relays.MAX_DATA_LENGTH
    requires s.conns[Sender(s.links[i], up)].taken + n <= |s.conns[Sender(s.links[i], up)].sent|
    ensures Enabled(s, RelayOf(up, i, n))
    ensures var s', from, to := Step(s, RelayOf(up, i, n)), Sender(s.links[i], up), Receiver(s.links[i], up);
            && s'.thread.Idle? && Ready(s', i, up)
            && Sender(s'.links[i], up) == from && Receiver(s'.links[i], up) == to
            && s'.conns[from] == s.conns[from].(taken := s.conns[from].taken + n)
            && s'.conns[to] == s.conns[to].(out := s.conns[to].out
                                                   + s.conns[from].sent[s.conns[from].taken..s.conns[from].taken + n])
  {
    hide HandlerStep, TakeHeader, TakeBody, ExpirationEvents;
  }

  /** The handler can finish without touching the ends of a bridge. */
  lemma {:induction false} HandlerGetsOutOfTheWay(s: State, i: nat) returns (actions: seq<Action>)
    requires Reachable(s) && i < |s.links| && s.links[i].one in s.conns && s.links[i].two in s.conns
    ensures |actions| <= StepsLeft(s.thread) <= 4 && CanRun(s, actions)
    ensures var s' := Run(s, actions);
            && s'.thread.Idle? && i < |s'.links| && s'.links[i] == s.links[i]
            && s.links[i].one in s'.conns && s.links[i].two in s'.conns
            && s'.conns[s.links[i].one] == s.conns[s.links[i].one]
               && s'.conns[s.links[i].two] == s.conns[s.links[i].two]
    decreases StepsLeft(s.thread)
  {
    hide Reachable, Step, Enabled, Run;
    if s.thread.Idle? {
      actions := [];
      NoSteps(s);
    } else {
      var a := Proceed(Rejected, s.clock);
      HandlerNeverStuck(s, Rejected, s.clock);
      OneStep(s, a);
      StillReachable(s, [a]);
      StepsAside(s, i);
      var rest := HandlerGetsOutOfTheWay(Step(s, a), i);
      actions := [a] + rest;
      RunConcat(s, [a], rest);
    }
  }

  lemma StepsAside(s: State, i: nat)
    requires Reachable(s) && i < |s.links| && s.links[i].one in s.conns && s.links[i].two in s.conns
    requires Enabled(s, Proceed(Rejected, s.clock))
    ensures var s' := Step(s, Proceed(Rejected, s.clock));
            && i < |s'.links| && s'.links[i] == s.links[i]
            && s.links[i].one in s'.conns && s.links[i].two in s'.conns
            && s'.conns[s.links[i].one] == s.conns[s.links[i].one]
               && s'.conns[s.links[i].two] == s.conns[s.links[i].two]
  {
    hide Reachable, Step, Enabled, Inv, Exclusive, Peers, ThreadOk, LinksOk, HandlerStep;
    ReachableInv(s);
    InvParts(s);
    PeersAre(s.links);
    HandlerApart(s, s.links[i].one);
    HandlerApart(s, s.links[i].two);
    HandlerElsewhere(s, Rejected, s.clock, s.links[i].one);
    HandlerElsewhere(s, Rejected, s.clock, s.links[i].two);
    ProceedIs(s, Rejected, s.clock);
  }

  /** Everything can be delivered. In every reachable state and for every direction of a bridge that lives
      and whose receiver is there: if the sending client has sent the messages `ms`, there is a run that
      only lets the handler finish and the bridge relay, after which the receiving client has read its
      session's replies and then every frame sent since the hand-off. It takes at most four steps of the
      handler, and as few rounds of the relay as the buffer allows. */
  lemma EverythingDelivered(s: State, i: nat, up: bool, ms: seq<Message>) returns (actions: seq<Action>)
    requires Reachable(s) && i < |s.links| && s.links[i].one in s.conns && s.links[i].two in s.conns
    requires Live(s.links[i], up) && !s.conns[Receiver(s.links[i], up)].broken
    requires s.conns[Sender(s.links[i], up)].sent == EncodeAll(ChunkAll(ms))
    ensures CanRun(s, actions)
    ensures var from, to, s' := Sender(s.links[i], up), Receiver(s.links[i], up), Run(s, actions);
            && from in s'.conns && to in s'.conns && s'.conns[from].sent == s.conns[from].sent
            && s.conns[from].requests <= ChunkAll(ms)
            && ReadAll(s'.conns[to].out) ==
               Reading(s.conns[to].replies + ChunkAll(ms)[|s.conns[from].requests|..], [])
    ensures var from := s.conns[Sender(s.links[i], up)];
            && from.taken <= |from.sent|
            && |actions| <= 4 + Relays.Turns(|from.sent| - from.taken, Relays.MAX_DATA_LENGTH)
  {
    hide Reachable, Step, Enabled, Inv, Exclusive, LinksOk, Ended, EncodeAll, Spoken, ReadAll, Relays.Turns, Piped;
    var l := s.links[i];
    Taken(s, i, up);
    var first := HandlerGetsOutOfTheWay(s, i);
    var s1 := Run(s, first);
    StillReachable(s, first);
    var rest := RelayRounds(s1, i, up);
    var s2 := Run(s1, rest);
    StillReachable(s1, rest);
    actions := first + rest;
    RunConcat(s, first, rest);
    Taken(s2, i, up);
    ReachableInv(s2);
    InvParts(s2);
    LinkAt(s2, i);
    Fitting(s2, l.one);
    Fitting(s2, l.two);
    if up {
      PipedEndToEnd(s2.conns[l.two], s2.conns[l.one], s2.links[i].toOne, s2.links[i].upLive, ms);
    } else {
      PipedEndToEnd(s2.conns[l.one], s2.conns[l.two], s2.links[i].toTwo, s2.links[i].downLive, ms);
    }
  }

  lemma Taken(s: State, i: nat, up: bool)
    requires Reachable(s) && i < |s.links| && s.links[i].one in s.conns && s.links[i].two in s.conns
    ensures s.links[i].one != s.links[i].two
    ensures s.conns[Sender(s.links[i], up)].taken <= |s.conns[Sender(s.links[i], up)].sent|
  {
    hide Reachable, Inv, Exclusive, LinksOk, Ended, EncodeAll;
    ReachableInv(s);
    InvParts(s);
    LinkAt(s, i);
  }

  // ---------------------------------------------------------------- a registrant that broke

  /** A session whose identifier cannot be sent, because its connection broke, stays in the registry: once
      its handler is done the entry, and nothing else, holds it. */
  lemma EntryOutlivesBreak(s: State, c: ConnId)
    requires Reachable(s) && s.thread == SendId(c) && c in s.conns && s.conns[c].broken && c in Waiting(s.registry)
    ensures var a := Proceed(Rejected, s.clock);
            && CanRun(s, [a, a]) && var s' := Run(s, [a, a]);
            && s'.thread.Idle? && s'.conns == s.conns && s'.registry == s.registry
            && forall h :: Holds(s', h, c) <==> h == RegistryEntry(SESSION_ID)
  {
    hide Reachable, Step, Enabled, Inv, Exclusive, ThreadOk;
    var a := Proceed(Rejected, s.clock);
    HandlerNeverStuck(s, Rejected, s.clock);
    BrokenSend(s, c);
    var s1 := Step(s, a);
    OneStep(s, a);
    StillReachable(s, [a]);
    HandlerNeverStuck(s1, Rejected, s1.clock);
    BrokenFarewell(s1, c);
    OneStep(s1, a);
    RunConcat(s, [a], [a]);
    assert [a] + [a] == [a, a];
    var s2 := Step(s1, a);
    StillReachable(s, [a, a]);
    ReachableInv(s2);
    InvParts(s2);
    UnderTheId(s2, c);
    forall h | Holds(s2, h, c) ensures h == RegistryEntry(SESSION_ID) {
      SingleOwner(s2, c, h, RegistryEntry(SESSION_ID));
    }
  }

  lemma BrokenSend(s: State, c: ConnId)
    requires s.thread == SendId(c) && Enabled(s, Proceed(Rejected, s.clock)) && c in s.conns && s.conns[c].broken
    ensures Step(s, Proceed(Rejected, s.clock)) == s.(thread := Unwinding(c, []))
  {
    hide Said, Relayed, TakeHeader, TakeBody, ExpirationEvents, HandleFirst, HandleNext;
  }

  lemma BrokenFarewell(s: State, c: ConnId)
    requires s.thread == Unwinding(c, []) && Enabled(s, Proceed(Rejected, s.clock)) && c in s.conns && s.conns[c].broken
    ensures Step(s, Proceed(Rejected, s.clock)) == s.(thread := Idle)
  {
    hide Said, Relayed, TakeHeader, TakeBody, ExpirationEvents, HandleFirst, HandleNext;
  }

  lemma UnderTheId(s: State, c: ConnId)
    requires Exclusive(s) && c in Waiting(s.registry)
    ensures Holds(s, RegistryEntry(SESSION_ID), c)
  {
    hide Peers, OnceEach;
  }

  /** And there is such a session: it logs in, registers, and breaks before it is told. */
  lemma BrokenRegistrant(c: ConnId) returns (actions: seq<Action>)
    ensures CanRun(INITIAL, actions)
    ensures var s := Run(INITIAL, actions);
            s.thread == SendId(c) && c in s.conns && s.conns[c].broken && c in Waiting(s.registry)
  {
    hide Step, Enabled, EncodeFrame, Run, Unconsumed, Said;
    var login, register := Message(LOGIN, []), Message(REGISTER_STREAMER, []);
    actions := Introduced(c, login, register);
    var s1 := Run(INITIAL, actions);
    StartReachable(actions);
    var toLogin := MessageReachesHandler(s1, c, login);
    Extend(INITIAL, actions, toLogin);
    actions := actions + toLogin;
    var s2 := Run(INITIAL, actions);
    StartReachable(actions);
    HandlerNeverStuck(s2, Accepted, s2.clock);
    LoginAccepted(s2, c, login);
    OneStep(s2, Proceed(Accepted, s2.clock));
    Extend(INITIAL, actions, [Proceed(Accepted, s2.clock)]);
    actions := actions + [Proceed(Accepted, s2.clock)];
    var s3 := Run(INITIAL, actions);
    StartReachable(actions);
    Second(EncodeFrame(login), EncodeFrame(register), s2.conns[c].sent[s2.conns[c].taken..]);
    NothingPartial(s3.conns[c], s3.armed[c]);
    var toRegister := MessageReachesHandler(s3, c, register);
    Extend(INITIAL, actions, toRegister);
    actions := actions + toRegister;
    var s4 := Run(INITIAL, actions);
    StartReachable(actions);
    HandlerNeverStuck(s4, Rejected, s4.clock);
    RegistersNow(s4, c, register);
    OneStep(s4, Proceed(Rejected, s4.clock));
    Extend(INITIAL, actions, [Proceed(Rejected, s4.clock)]);
    actions := actions + [Proceed(Rejected, s4.clock)];
    var s5 := Run(INITIAL, actions);
    Breaks(s5, c);
    OneStep(s5, PeerBreaks(c));
    Extend(INITIAL, actions, [PeerBreaks(c)]);
    actions := actions + [PeerBreaks(c)];
  }

  lemma Extend(s: State, a: seq<Action>, b: seq<Action>)
    requires CanRun(s, a) && CanRun(Run(s, a), b)
    ensures CanRun(s, a + b) && Run(s, a + b) == Run(Run(s, a), b)
  {
    hide Step, Enabled;
    RunConcat(s, a, b);
  }

  lemma StartReachable(actions: seq<Action>)
    requires CanRun(INITIAL, actions)
    ensures Reachable(Run(INITIAL, actions))
  {
  }

  lemma Second(a: seq<byte>, b: seq<byte>, rest: seq<byte>)
    requires a + rest == a + b
    ensures rest == b
  {
    assert rest == (a + rest)[|a|..] && b == (a + b)[|a|..];
  }

  // connects, and sends both messages
  lemma Introduced(c: ConnId, login: Message, register: Message) returns (actions: seq<Action>)
    ensures CanRun(INITIAL, actions)
    ensures var s, bytes := Run(INITIAL, actions), EncodeFrame(login) + EncodeFrame(register);
            && s.thread.Idle? && s.conns == map[c := Conn(bytes, 0, [], false, [], [], None)]
            && s.armed == map[c := Arm(BeforeLogin, None)]
            && Unconsumed(s.conns[c], s.armed[c]) == bytes
  {
    hide EncodeFrame, HandlerStep, TakeHeader, TakeBody, Relayed, ExpirationEvents;
    var bytes := EncodeFrame(login) + EncodeFrame(register);
    actions := [Connect(c)] + [PeerSends(c, bytes)];
    OneStep(INITIAL, Connect(c));
    var s1 := Step(INITIAL, Connect(c));
    assert s1.conns[c].sent + bytes == bytes;
    OneStep(s1, PeerSends(c, bytes));
    RunConcat(INITIAL, [Connect(c)], [PeerSends(c, bytes)]);
    var s2 := Step(s1, PeerSends(c, bytes));
    assert s2.conns == map[c := Conn(bytes, 0, [], false, [], [], None)];
  }

  lemma LoginAccepted(s: State, c: ConnId, m: Message)
    requires s.thread == FirstMessage(c, m) && m.kind == LOGIN && Enabled(s, Proceed(Accepted, s.clock))
    requires c in s.conns && !s.conns[c].broken
    ensures var s', conn := Step(s, Proceed(Accepted, s.clock)), s.conns[c];
            && s'.thread.Idle? && c in s'.conns && c in s'.armed && s'.armed[c] == Arm(AfterLogin, None)
            && s'.conns[c].sent == conn.sent && s'.conns[c].taken == conn.taken && !s'.conns[c].broken
  {
    hide Relayed, TakeHeader, TakeBody, ExpirationEvents, HandleNext, EncodeFrame;
  }

  lemma RegistersNow(s: State, c: ConnId, m: Message)
    requires s.thread == NextMessage(c, m) && m.kind == REGISTER_STREAMER && Enabled(s, Proceed(Rejected, s.clock))
    requires c in s.conns
    ensures var s' := Step(s, Proceed(Rejected, s.clock));
            s'.thread == SendId(c) && s'.conns == s.conns && c in Waiting(s'.registry)
  {
    hide Relayed, TakeHeader, TakeBody, ExpirationEvents, HandleFirst, EncodeFrame;
    var s' := Step(s, Proceed(Rejected, s.clock));
    assert s'.registry[SESSION_ID].session == c;
  }

  lemma Breaks(s: State, c: ConnId)
    requires c in s.conns
    ensures Enabled(s, PeerBreaks(c))
    ensures var s' := Step(s, PeerBreaks(c));
            c in s'.conns && s'.conns[c].broken && s'.thread == s.thread && s'.registry == s.registry
  {
    hide HandlerStep, Relayed, TakeHeader, TakeBody, ExpirationEvents;
  }
}
