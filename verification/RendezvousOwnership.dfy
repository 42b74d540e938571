/** Who holds a connection, in every state of every run: never two of the places where the program keeps
    connections, and always one, until the connection is let go for one of the reasons listed here. */
module RendezvousOwnership {
  import opened Messages
  import opened Framing
  import opened Registry
  import opened Protocol
  import opened Rendezvous
  import opened RendezvousInvariant
  import opened RendezvousSteps
  import opened RendezvousTheorems

  // ---------------------------------------------------------------- at most one

  datatype Holder =
    | ArmedRead | Handler | ExtractedNode | RegistryEntry(id: Id) | StreamerEnd(link: nat) | ViewerEnd(link: nat)

  /** Whether `h` is one of the places that hold the connection, read from the structures themselves. */
  predicate Holds(s: State, h: Holder, c: ConnId) {
    match h
    case ArmedRead => c in s.armed
    case Handler => !s.thread.Idle? && s.thread.c == c
    case ExtractedNode => (s.thread.SendFound? || s.thread.SendStart? || s.thread.OpenBridge?) && s.thread.streamer == c
    case RegistryEntry(id) => id in s.registry && s.registry[id].session == c
    case StreamerEnd(i) => i < |s.links| && s.links[i].one == c
    case ViewerEnd(i) => i < |s.links| && s.links[i].two == c
  }

  /** No connection is ever held in two places, except that the handler that registers a connection
      overlaps the registry entry until it has sent the identifier (or has failed to, because the
      connection broke). In particular a bridged socket is read by its bridge only, no connection is
      in two bridges or bridged with itself, and no read is armed on a socket that somebody else
      holds. */
  lemma SingleOwner(s: State, c: ConnId, g: Holder, h: Holder)
    requires Reachable(s) && Holds(s, g, c) && Holds(s, h, c)
    ensures g == h || (g.Handler? && h.RegistryEntry?) || (g.RegistryEntry? && h.Handler?)
    ensures g != h ==>
              c in s.conns && (s.thread == SendId(c) || (s.thread.Unwinding? && s.thread.c == c && s.conns[c].broken))
  {
    ReachableInv(s);
    Owners(s, c, g, h);
  }

  lemma Owners(s: State, c: ConnId, g: Holder, h: Holder)
    requires Exclusive(s) && ThreadOk(s) && Holds(s, g, c) && Holds(s, h, c)
    ensures g == h || (g.Handler? && h.RegistryEntry?) || (g.RegistryEntry? && h.Handler?)
    ensures g != h ==>
              c in s.conns && (s.thread == SendId(c) || (s.thread.Unwinding? && s.thread.c == c && s.conns[c].broken))
  {
    hide Peers, ReadTo, Ended, Registrant, Grammar, Kinds, Lossy;
    PeersAre(s.links);
    InPart(s, c, g);
    InPart(s, c, h);
  }

  lemma InPart(s: State, c: ConnId, h: Holder)
    requires Holds(s, h, c)
    ensures h.ArmedRead? ==> c in s.armed.Keys
    ensures h.Handler? ==> c in Main(s.thread)
    ensures h.ExtractedNode? ==> c in Node(s.thread)
    ensures h.RegistryEntry? ==> c in Waiting(s.registry)
    ensures h.StreamerEnd? || h.ViewerEnd? ==> c in Peers(s.links)
  {
    hide Peers;
    PeersAre(s.links);
  }

  /** The next read is armed only on a connection on which none is outstanding and that nobody but
      the running handler holds. */
  lemma ArmsAlone(s: State, a: Action, c: ConnId, h: Holder)
    requires Reachable(s) && Enabled(s, a) && a.Proceed?
    requires c in Step(s, a).armed && (c !in s.armed || Step(s, a).armed[c] != s.armed[c])
    requires Holds(s, h, c)
    ensures h.Handler? && c !in s.armed
  {
    hide Reachable;
    ProceedArms(s, a.verdict, a.now, c);
    ReachableInv(s);
    if !h.Handler? { Owners(s, c, h, Handler); }
    if c in s.armed { Owners(s, c, ArmedRead, Handler); }
    NotRegistering(s, c, h);
  }

  lemma ProceedArms(s: State, verdict: Verdict, now: int, c: ConnId)
    requires Enabled(s, Proceed(verdict, now))
    requires c in Step(s, Proceed(verdict, now)).armed
    requires c !in s.armed || Step(s, Proceed(verdict, now)).armed[c] != s.armed[c]
    ensures Holds(s, Handler, c) && !s.thread.SendId? && !s.thread.Unwinding?
  {
    hide Enabled, Said, NotExpected, OnFirstMessage;
    ProceedIs(s, verdict, now);
  }

  lemma ProceedIs(s: State, verdict: Verdict, now: int)
    requires Enabled(s, Proceed(verdict, now))
    ensures !s.thread.Idle? && s.thread.c in s.conns && (s.thread.SendStart? ==> s.thread.streamer in s.conns)
    ensures Step(s, Proceed(verdict, now)) == HandlerStep(s, verdict, now).(clock := now)
  {
    hide HandlerStep, Relayed, TakeHeader, TakeBody, ExpirationEvents, IdSet, SweepOutcome, Distinct;
  }

  lemma NotRegistering(s: State, c: ConnId, h: Holder)
    requires Exclusive(s) && ThreadOk(s) && Holds(s, h, c) && Holds(s, Handler, c) && !s.thread.SendId?
             && !s.thread.Unwinding?
    ensures h.Handler?
  {
    if h != Handler { Owners(s, c, h, Handler); }
  }

  // ---------------------------------------------------------------- and at least one

  /** Whether this step lets go of the connection: its read failed; its login was refused; its farewell
      is over; its entry expired, was cleared, or was replaced by another registration; its entry was
      gone by the time it was told the identifier; it was found, but one of the two connections broke. */
  ghost predicate LetsGo(s: State, a: Action, c: ConnId)
    requires Enabled(s, a)
  {
    match a
    case ReadFails(d) => c == d
    case Proceed(verdict, _) => HandlerLetsGo(s, verdict, c)
    case BridgeFails => c == s.thread.c || c == s.thread.streamer
    case Sweep(_, gone, _) => c !in Main(s.thread) && exists id ::
          id in gone && id in s.registry && s.registry[id].session == c
    case ResetRegistry => c !in Main(s.thread) && c in Waiting(s.registry)
    case _ => false
  }

  ghost predicate HandlerLetsGo(s: State, verdict: Verdict, c: ConnId)
    requires Enabled(s, Proceed(verdict, s.clock))
  {
    match s.thread
    case FirstMessage(d, m) => c == d && !s.conns[d].broken && (m.kind != LOGIN || verdict.Rejected?)
    case NextMessage(_, m) => m.kind == REGISTER_STREAMER && SESSION_ID in s.registry
        && s.registry[SESSION_ID].session == c
    case SendId(d) => c == d && !s.conns[d].broken && c !in Waiting(s.registry)
    case SendFound(d, streamer) => c == streamer && s.conns[d].broken
    case SendStart(_, streamer) => c == streamer && s.conns[streamer].broken
    case Unwinding(d, _) => c == d && c !in Waiting(s.registry)
    case _ => false
  }

  ghost predicate Held(s: State, c: ConnId) {
    exists h :: Holds(s, h, c)
  }

  ghost predicate Kept(s: State, c: ConnId) {
    c in s.armed.Keys + Main(s.thread) + Node(s.thread) + Waiting(s.registry) + Peers(s.links)
  }

  lemma HeldIsKept(s: State, c: ConnId)
    ensures Held(s, c) <==> Kept(s, c)
  {
    hide Peers;
    PeersAre(s.links);
    if Held(s, c) {
      var h :| Holds(s, h, c);
      InPart(s, c, h);
    }
    if c in s.armed.Keys { assert Holds(s, ArmedRead, c); }
    if c in Main(s.thread) { assert Holds(s, Handler, c); }
    if c in Node(s.thread) { assert Holds(s, ExtractedNode, c); }
    if c in Waiting(s.registry) {
      var id :| id in s.registry && s.registry[id].session == c;
      assert Holds(s, RegistryEntry(id), c);
    }
    if c in Peers(s.links) {
      var i :| 0 <= i < |s.links| && (s.links[i].one == c || s.links[i].two == c);
      assert Holds(s, StreamerEnd(i), c) || Holds(s, ViewerEnd(i), c);
    }
  }

  lemma HandlerKeepsHold(s: State, verdict: Verdict, now: int, c: ConnId)
    requires Exclusive(s) && Enabled(s, Proceed(verdict, now)) && c in s.conns
    ensures Kept(HandlerStep(s, verdict, now), c) <==> Kept(s, c) && !HandlerLetsGo(s, verdict, c)
  {
    hide Kept, Exclusive, HandlerStep, Enabled;
    ProceedIs(s, verdict, now);
    if s.thread.FirstMessage? {
      FirstKeepsHold(s, s.thread.c, s.thread.m, verdict, now, c);
    } else if s.thread.NextMessage? {
      NextKeepsHold(s, s.thread.c, s.thread.m, verdict, now, c);
    } else if s.thread.SendFound? || s.thread.SendStart? || s.thread.OpenBridge? {
      HandOffKeepsHold(s, verdict, now, c);
    } else {
      ReplyKeepsHold(s, verdict, now, c);
    }
  }

  lemma FirstKeepsHold(s: State, d: ConnId, m: Message, verdict: Verdict, now: int, c: ConnId)
    requires Exclusive(s) && d in s.conns && c in s.conns && s.thread == FirstMessage(d, m)
    ensures Kept(HandlerStep(s, verdict, now), c) <==>
              Kept(s, c) && !(c == d && !s.conns[d].broken && (m.kind != LOGIN || verdict.Rejected?))
  {
    hide Said, OnceEach, Peers, Waiting;
  }

  lemma NextKeepsHold(s: State, d: ConnId, m: Message, verdict: Verdict, now: int, c: ConnId)
    requires Exclusive(s) && d in s.conns && c in s.conns && s.thread == NextMessage(d, m)
    ensures Kept(HandlerStep(s, verdict, now), c) <==>
            Kept(s, c) && !(m.kind == REGISTER_STREAMER && SESSION_ID in s.registry
                && s.registry[SESSION_ID].session == c)
  {
    hide NotExpected, Kept, Exclusive, Said;
    if m.kind == REGISTER_STREAMER || (m.kind == FIND_STREAMER && m.content in s.registry) {
      RegistryKeepsHold(s, d, m, now, c);
    } else {
      AnswerKeepsHold(s, d, m, now, c);
    }
  }

  lemma RegistryKeepsHold(s: State, d: ConnId, m: Message, now: int, c: ConnId)
    requires Exclusive(s) && d in s.conns && c in s.conns && s.thread == NextMessage(d, m)
    requires m.kind == REGISTER_STREAMER || (m.kind == FIND_STREAMER && m.content in s.registry)
    ensures Kept(HandleNext(s, d, m, now), c) <==>
            Kept(s, c) && !(m.kind == REGISTER_STREAMER && SESSION_ID in s.registry
                && s.registry[SESSION_ID].session == c)
  {
    hide Said, NotExpected, OnceEach, Peers, Waiting;
    OneEntry(s.registry, SESSION_ID);
    OneEntry(HandleNext(s, d, m, now).registry, SESSION_ID);
  }

  lemma AnswerKeepsHold(s: State, d: ConnId, m: Message, now: int, c: ConnId)
    requires Exclusive(s) && d in s.conns && c in s.conns && s.thread == NextMessage(d, m)
    requires m.kind != REGISTER_STREAMER && !(m.kind == FIND_STREAMER && m.content in s.registry)
    ensures Kept(HandleNext(s, d, m, now), c) <==> Kept(s, c)
  {
    hide Said, NotExpected, OnceEach, Peers, Waiting, Exclusive;
  }

  lemma ReplyKeepsHold(s: State, verdict: Verdict, now: int, c: ConnId)
    requires Exclusive(s) && Enabled(s, Proceed(verdict, now)) && c in s.conns
    requires s.thread.SendId? || s.thread.SendNotFound? || s.thread.Unwinding?
    ensures Kept(HandlerStep(s, verdict, now), c) <==> Kept(s, c) && !HandlerLetsGo(s, verdict, c)
  {
    hide Said, HandleFirst, HandleNext, OnceEach, Peers, Waiting, Enabled;
    ProceedIs(s, verdict, now);
  }

  lemma HandOffKeepsHold(s: State, verdict: Verdict, now: int, c: ConnId)
    requires Exclusive(s) && Enabled(s, Proceed(verdict, now)) && c in s.conns
    requires s.thread.SendFound? || s.thread.SendStart? || s.thread.OpenBridge?
    ensures Kept(HandlerStep(s, verdict, now), c) <==> Kept(s, c) && !HandlerLetsGo(s, verdict, c)
  {
    hide Said, HandleFirst, HandleNext, OnceEach, Peers, Waiting, Enabled;
    ProceedIs(s, verdict, now);
    if s.thread.OpenBridge? {
      PeersAppend(s.links, Link(s.thread.streamer, s.thread.c, 0, 0, true, true));
    }
  }

  lemma OneEntry(registry: map<Id, Entry<ConnId>>, id: Id)
    requires registry.Keys <= {id}
    ensures Waiting(registry) == if id in registry then {registry[id].session} else {}
  {
  }

  /** A step lets go of exactly the connections that `LetsGo` says; it keeps all others that were held,
      takes hold of a new one when it connects, and never gets one back. */
  lemma StepKeepsHold(s: State, a: Action, c: ConnId)
    requires Inv(s) && Enabled(s, a)
    ensures s.conns.Keys <= Step(s, a).conns.Keys
    ensures c in s.conns ==> (Kept(Step(s, a), c) <==> Kept(s, c) && !LetsGo(s, a, c))
    ensures c !in s.conns ==> !LetsGo(s, a, c) && (c in Step(s, a).conns ==> Kept(Step(s, a), c))
  {
    hide Inv, Step, Enabled, Kept, LetsGo, Exclusive;
    InvParts(s);
    ConnsGrow(s, a, c);
    if c in s.conns {
      match a
      case Proceed(verdict, now) => ProceedKeepsHold(s, verdict, now, c);
      case RelayUp(i, n, written, ok) => RelayKeepsHold(s, a, i, c);
      case RelayDown(i, n, written, ok) => RelayKeepsHold(s, a, i, c);
      case _ => OtherStepsKeepHold(s, a, c);
    }
  }

  lemma ConnsGrow(s: State, a: Action, c: ConnId)
    requires Exclusive(s) && Enabled(s, a)
    ensures s.conns.Keys <= Step(s, a).conns.Keys
    ensures c !in s.conns ==> !LetsGo(s, a, c) && (c in Step(s, a).conns ==> Kept(Step(s, a), c))
  {
    hide ExpirationEvents, Deserialize, EncodeFrame, OnceEach, Peers, SweepOutcome, Distinct, HandlerStep;
    match a
    case Proceed(verdict, now) =>
      HandlerConns(s, verdict, now);
      if HandlerLetsGo(s, verdict, c) { LetGoIsKnown(s, verdict, c); }
    case _ =>
  }

  lemma HandlerConns(s: State, verdict: Verdict, now: int)
    requires Enabled(s, Proceed(verdict, now))
    ensures HandlerStep(s, verdict, now).conns.Keys == s.conns.Keys
  {
    hide Said, HandleFirst, HandleNext, Enabled;
    ProceedIs(s, verdict, now);
    if s.thread.FirstMessage? { FirstConns(s, s.thread.c, s.thread.m, verdict); }
    if s.thread.NextMessage? { NextConns(s, s.thread.c, s.thread.m, now); }
  }

  lemma FirstConns(s: State, c: ConnId, m: Message, verdict: Verdict)
    requires c in s.conns
    ensures HandleFirst(s, c, m, verdict).conns.Keys == s.conns.Keys
  {
    hide Said, OnFirstMessage;
  }

  lemma NextConns(s: State, c: ConnId, m: Message, now: int)
    requires c in s.conns
    ensures HandleNext(s, c, m, now).conns.Keys == s.conns.Keys
  {
    hide Said, NotExpected;
  }

  lemma LetGoIsKnown(s: State, verdict: Verdict, c: ConnId)
    requires Exclusive(s) && Enabled(s, Proceed(verdict, s.clock)) && HandlerLetsGo(s, verdict, c)
    ensures c in s.conns
  {
    hide OnceEach, Peers, Enabled;
    ProceedIs(s, verdict, s.clock);
  }

  lemma ProceedKeepsHold(s: State, verdict: Verdict, now: int, c: ConnId)
    requires Exclusive(s) && Enabled(s, Proceed(verdict, now)) && c in s.conns
    ensures Kept(Step(s, Proceed(verdict, now)), c) <==> Kept(s, c) && !LetsGo(s, Proceed(verdict, now), c)
  {
    hide Exclusive, Step, HandlerStep, Enabled, HandlerLetsGo, Peers, Waiting, Main, Node;
    ProceedIs(s, verdict, now);
    HandlerKeepsHold(s, verdict, now, c);
  }

  lemma RelayKeepsHold(s: State, a: Action, i: nat, c: ConnId)
    requires Enabled(s, a) && (a.RelayUp? || a.RelayDown?) && a.link == i
    ensures Kept(Step(s, a), c) <==> Kept(s, c) && !LetsGo(s, a, c)
  {
    hide Peers, Waiting, Main, Node;
    SamePeers(s.links, i, Step(s, a).links[i]);
  }

  lemma OtherStepsKeepHold(s: State, a: Action, c: ConnId)
    requires Exclusive(s) && Enabled(s, a) && c in s.conns && !a.Proceed? && !a.RelayUp? && !a.RelayDown?
    ensures Kept(Step(s, a), c) <==> Kept(s, c) && !LetsGo(s, a, c)
  {
    hide HandlerStep, ExpirationEvents, Deserialize, EncodeFrame, OnceEach, Peers, SweepOutcome, Distinct, Waiting;
    OneEntry(s.registry, SESSION_ID);
    if a.Sweep? || a.ResetRegistry? { OneEntry(Step(s, a).registry, SESSION_ID); }
  }

  /** Whether some step of the run let go of the connection. */
  ghost predicate LetGoDuring(s: State, actions: seq<Action>, c: ConnId)
    requires CanRun(s, actions)
    decreases |actions|
  {
    actions != [] && (LetsGo(s, actions[0], c) || LetGoDuring(Step(s, actions[0]), actions[1..], c))
  }

  lemma {:induction false} RunKeepsHold(s: State, actions: seq<Action>, c: ConnId)
    requires Inv(s) && CanRun(s, actions) && c in Run(s, actions).conns
    ensures Kept(Run(s, actions), c) <==> (c in s.conns ==> Kept(s, c)) && !LetGoDuring(s, actions, c)
    decreases |actions|
  {
    hide Inv, Step, Enabled, Kept, LetsGo;
    if actions == [] {
    } else {
      StepKeeps(s, actions[0]);
      StepKeepsHold(s, actions[0], c);
      RunKeepsHold(Step(s, actions[0]), actions[1..], c);
    }
  }

  /** In every run, a connection is held at the end exactly if no step has let go of it, and then by
      exactly one of an armed read, the handler, the node taken out of the registry, a registry entry
      and a bridge, but for the overlap of `SingleOwner`. In particular every handler that does not
      fail and neither registers nor bridges its connection reads on. */
  lemma ExactlyOneOwner(actions: seq<Action>, c: ConnId)
    requires CanRun(INITIAL, actions) && c in Run(INITIAL, actions).conns
    ensures var s := Run(INITIAL, actions);
            if LetGoDuring(INITIAL, actions, c) then forall h :: !Holds(s, h, c)
            else exists h :: Holds(s, h, c)
                   && forall g :: Holds(s, g, c) && g != h ==>
                        (s.thread == SendId(c) || (s.thread.Unwinding? && s.thread.c == c && s.conns[c].broken))
                        && ((g.Handler? && h.RegistryEntry?) || (g.RegistryEntry? && h.Handler?))
  {
    hide Inv, Kept, Exclusive, ThreadOk;
    InitialInv();
    RunKeepsHold(INITIAL, actions, c);
    var s := Run(INITIAL, actions);
    HeldIsKept(s, c);
    if !LetGoDuring(INITIAL, actions, c) {
      assert Held(s, c);
      var h :| Holds(s, h, c);
      assert Reachable(s);
      forall g | Holds(s, g, c) && g != h
        ensures s.thread == SendId(c) || (s.thread.Unwinding? && s.thread.c == c && s.conns[c].broken)
        ensures (g.Handler? && h.RegistryEntry?) || (g.RegistryEntry? && h.Handler?)
      {
        SingleOwner(s, c, g, h);
      }
    }
  }
}
