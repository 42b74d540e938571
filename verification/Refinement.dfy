/** The transition system makes the steps that the objects make: its relays are moves of the pipes that
    `Bridge` carries, and its reads are the reads of `SocketBase`. */
module Refinement {
  import opened Messages
  import opened Framing
  import opened Registry
  import opened Protocol
  import opened Rendezvous
  import opened RendezvousInvariant
  import opened RendezvousSteps
  import RendezvousTheorems
  import Sockets

  // ---------------------------------------------------------------- bridges

  /** One direction of a bridge as a pipe: since the hand-off, what one peer sent, how much of it was
      read, and what was written to the other. */
  ghost function PipeOf(from: Conn, to: Conn, live: bool): Relays.Pipe
    requires EncodeAll(from.requests) <= from.sent && |EncodeAll(from.requests)| <= from.taken
    requires EncodeAll(to.replies) <= to.out
  {
    Relays.Pipe(Past(from), from.taken - |EncodeAll(from.requests)|, to.out[|EncodeAll(to.replies)|..], live)
  }

  ghost predicate Piping(from: Conn, to: Conn) {
    EncodeAll(from.requests) <= from.sent && |EncodeAll(from.requests)| <= from.taken && EncodeAll(to.replies) <= to.out
  }

  function Sender(l: Link, up: bool): ConnId {
    if up then l.two else l.one
  }

  function Receiver(l: Link, up: bool): ConnId {
    if up then l.one else l.two
  }

  predicate Live(l: Link, up: bool) {
    if up then l.upLive else l.downLive
  }

  ghost predicate HasPipe(s: State, i: nat, up: bool) {
    && i < |s.links| && s.links[i].one in s.conns && s.links[i].two in s.conns
    && Piping(s.conns[Sender(s.links[i], up)], s.conns[Receiver(s.links[i], up)])
  }

  /** One direction (up: from the viewer to the streamer) of the i-th bridge. */
  ghost function PipeAt(s: State, i: nat, up: bool): Relays.Pipe
    requires HasPipe(s, i, up)
  {
    PipeOf(s.conns[Sender(s.links[i], up)], s.conns[Receiver(s.links[i], up)], Live(s.links[i], up))
  }

  /** What a step of the system is for a pipe: at most one move. */
  function MovesOf(a: Action, l: Link, i: nat, up: bool): seq<Relays.Move> {
    match a
    case PeerSends(c, bytes) => if c == Sender(l, up) then [Relays.Arrive(bytes)] else []
    case RelayUp(j, n, written, ok) =>
      if up && j == i then [if ok then Relays.Relay(n) else Relays.Fail(n, written)] else []
    case RelayDown(j, n, written, ok) =>
      if !up && j == i then [if ok then Relays.Relay(n) else Relays.Fail(n, written)] else []
    case _ => []
  }

  lemma PipedIsFaithful(from: Conn, to: Conn, k: nat, live: bool)
    requires Piped(from, to, k, live)
    ensures Piping(from, to) && Relays.Faithful(PipeOf(from, to, live))
    ensures to.out[|EncodeAll(to.replies)|..] == Past(from)[..k]
  {
    hide EncodeAll;
  }

  lemma PipeMoves(from: Conn, to: Conn, k: nat, n: nat, written: nat, ok: bool, from': Conn, to': Conn)
    requires Piped(from, to, k, true) && written <= n <= Relays.MAX_DATA_LENGTH && from.taken + n <= |from.sent|
    requires ok ==> 1 <= n == written
    requires from' == from.(taken := from.taken + n)
             && to' == to.(out := to.out + from.sent[from.taken..from.taken + written])
    ensures Piping(from, to) && Piping(from', to')
    ensures var p, m := PipeOf(from, to, true), if ok then Relays.Relay(n) else Relays.Fail(n, written);
            Relays.CanMove(p, m) && PipeOf(from', to', ok) == Relays.Apply(p, m)
  {
    hide EncodeAll;
    var h, chunk := |EncodeAll(from.requests)|, from.sent[from.taken..from.taken + written];
    SameSlice(from.sent, h, from.taken, written);
    PrefixAndMore(EncodeAll(to.replies), Past(from)[..k], chunk, to.out);
  }

  lemma SameSlice(sent: seq<byte>, h: nat, taken: nat, n: nat)
    requires h <= taken && taken + n <= |sent|
    ensures sent[h..][taken - h..taken - h + n] == sent[taken..taken + n]
  {
  }

  lemma PrefixAndMore(said: seq<byte>, relayed: seq<byte>, chunk: seq<byte>, out: seq<byte>)
    requires out == said + relayed
    ensures said <= out && said <= out + chunk
    ensures out[|said|..] == relayed && (out + chunk)[|said|..] == relayed + chunk
  {
    assert out + chunk == said + (relayed + chunk);
  }

  lemma PipeGrows(from: Conn, to: Conn, k: nat, live: bool, from': Conn, to': Conn, arrived: seq<byte>)
    requires Piped(from, to, k, live)
    requires from' == from.(sent := from.sent + arrived, broken := from'.broken)
    requires to' == to.(sent := to'.sent, broken := to'.broken)
    ensures Piping(from, to) && Piping(from', to')
    ensures PipeOf(from', to', live) == Relays.Apply(PipeOf(from, to, live), Relays.Arrive(arrived))
  {
    hide EncodeAll;
    assert Past(from') == Past(from) + arrived;
  }

  lemma PipeStays(from: Conn, to: Conn, k: nat, live: bool, from': Conn, to': Conn)
    requires Piped(from, to, k, live)
    requires from' == from.(out := from'.out) && to' == to.(taken := to'.taken)
    ensures Piping(from, to) && Piping(from', to') && PipeOf(from', to', live) == PipeOf(from, to, live)
  {
    hide EncodeAll;
  }

  /** Both directions of every bridge, at every step of every run: the step is, for each, at most one move
      of the relay, and of the two at most one moves. */
  lemma BridgeRefinesRelays(s: State, a: Action, i: nat, up: bool)
    requires Inv(s) && Enabled(s, a) && i < |s.links|
    ensures var s', moves := Step(s, a), MovesOf(a, s.links[i], i, up);
            && HasPipe(s, i, up) && HasPipe(s', i, up)
            && s'.links[i].one == s.links[i].one && s'.links[i].two == s.links[i].two
               && s.links[i].one != s.links[i].two
            && Relays.Faithful(PipeAt(s, i, up))
            && Relays.CanRun(PipeAt(s, i, up), moves) && PipeAt(s', i, up) == Relays.Run(PipeAt(s, i, up), moves)
    ensures var moves, others := MovesOf(a, s.links[i], i, up), MovesOf(a, s.links[i], i, !up);
            |moves| <= 1 && (moves == [] || others == [])
  {
    hide Inv, Step, Enabled, Exclusive, LinksOk, Ended, Piped, PipeOf, Piping;
    RendezvousTheorems.InvParts(s);
    LinkAt(s, i);
    PipeIsThere(s, i, up);
    if (a.RelayUp? || a.RelayDown?) && a.link == i {
      OwnRelay(s, a, i, up);
    } else {
      OtherStep(s, a, i);
      Elsewhere(s, a, i, up);
    }
  }

  lemma PipeIsThere(s: State, i: nat, up: bool)
    requires i < |s.links| && s.links[i].one in s.conns && s.links[i].two in s.conns
    requires LinkOk(s.conns[s.links[i].one], s.conns[s.links[i].two], s.links[i])
    ensures HasPipe(s, i, up) && Relays.Faithful(PipeAt(s, i, up))
    ensures exists k :: Piped(s.conns[Sender(s.links[i], up)], s.conns[Receiver(s.links[i], up)], k,
            Live(s.links[i], up))
  {
    hide Piped, PipeOf, Piping, Ended;
    var l := s.links[i];
    PipedIsFaithful(s.conns[Sender(l, up)], s.conns[Receiver(l, up)], if up then l.toOne else l.toTwo, Live(l, up));
  }

  lemma OneMove(p: Relays.Pipe, m: Relays.Move)
    requires Relays.CanMove(p, m)
    ensures Relays.CanRun(p, [m]) && Relays.Run(p, [m]) == Relays.Apply(p, m)
  {
    var p' := Relays.Apply(p, m);
    assert [m][1..] == [];
    assert Relays.CanRun(p', []) && Relays.Run(p', []) == p';
  }

  lemma Elsewhere(s: State, a: Action, i: nat, up: bool)
    requires Enabled(s, a) && i < |s.links| && !((a.RelayUp? || a.RelayDown?) && a.link == i)
    requires s.links[i].one in s.conns && s.links[i].two in s.conns && s.links[i].one != s.links[i].two
    requires LinkOk(s.conns[s.links[i].one], s.conns[s.links[i].two], s.links[i]) && EndsKept(s, Step(s, a), a, i)
    ensures var s', moves := Step(s, a), MovesOf(a, s.links[i], i, up);
            && HasPipe(s, i, up) && HasPipe(s', i, up)
            && Relays.CanRun(PipeAt(s, i, up), moves) && PipeAt(s', i, up) == Relays.Run(PipeAt(s, i, up), moves)
  {
    hide Step, Enabled, Piped, PipeOf, Piping, Ended;
    PipeIsThere(s, i, up);
    var s', l := Step(s, a), s.links[i];
    var from, to := s.conns[Sender(l, up)], s.conns[Receiver(l, up)];
    var k :| Piped(from, to, k, Live(l, up));
    var arrived := Arriving(a, Sender(l, up));
    PipeGrows(from, to, k, Live(l, up), s'.conns[Sender(l, up)], s'.conns[Receiver(l, up)], arrived);
    var p := PipeAt(s, i, up);
    if MovesOf(a, l, i, up) != [] {
      OneMove(p, Relays.Arrive(arrived));
    } else {
      assert p.source + arrived == p.source;
      assert Relays.CanRun(p, []) && Relays.Run(p, []) == p;
    }
  }

  lemma OwnRelay(s: State, a: Action, i: nat, up: bool)
    requires Enabled(s, a) && i < |s.links| && (a.RelayUp? || a.RelayDown?) && a.link == i
    requires s.links[i].one in s.conns && s.links[i].two in s.conns && s.links[i].one != s.links[i].two
    requires LinkOk(s.conns[s.links[i].one], s.conns[s.links[i].two], s.links[i])
    ensures var s', moves, l := Step(s, a), MovesOf(a, s.links[i], i, up), s.links[i];
            && HasPipe(s, i, up) && HasPipe(s', i, up)
            && s'.links[i].one == l.one && s'.links[i].two == l.two
            && Relays.CanRun(PipeAt(s, i, up), moves) && PipeAt(s', i, up) == Relays.Run(PipeAt(s, i, up), moves)
  {
    hide Ended, Piped, PipeOf, Piping, Step, Enabled, EncodeAll, Relays.Run, Relays.CanRun, Relays.CanMove,
         Relays.Apply;
    RelayIs(s, a, i);
    PipeIsThere(s, i, up);
    var s', l := Step(s, a), s.links[i];
    var from, to := s.conns[Sender(l, up)], s.conns[Receiver(l, up)];
    var from', to' := s'.conns[Sender(l, up)], s'.conns[Receiver(l, up)];
    var k :| Piped(from, to, k, Live(l, up));
    if a.RelayUp? == up {
      PipeMoves(from, to, k, a.n, a.written, a.ok, from', to');
      OneMove(PipeAt(s, i, up), if a.ok then Relays.Relay(a.n) else Relays.Fail(a.n, a.written));
    } else {
      PipeStays(from, to, k, Live(l, up), from', to');
      NoMove(PipeAt(s, i, up));
    }
  }

  lemma NoMove(p: Relays.Pipe)
    ensures Relays.CanRun(p, []) && Relays.Run(p, []) == p
  {
  }

  lemma RelayIs(s: State, a: Action, i: nat)
    requires Enabled(s, a) && i < |s.links| && (a.RelayUp? || a.RelayDown?) && a.link == i
    requires s.links[i].one in s.conns && s.links[i].two in s.conns && s.links[i].one != s.links[i].two
    ensures var s', l, up := Step(s, a), s.links[i], a.RelayUp?;
            var from, to := Sender(l, up), Receiver(l, up);
            && i < |s'.links| && s'.links[i].one == l.one && s'.links[i].two == l.two
            && Live(l, up) && Live(s'.links[i], up) == a.ok && Live(s'.links[i], !up) == Live(l, !up)
            && a.written <= a.n <= Relays.MAX_DATA_LENGTH && s.conns[from].taken + a.n <= |s.conns[from].sent|
            && (a.ok ==> 1 <= a.n == a.written)
            && from in s'.conns && to in s'.conns
            && s'.conns[from] == s.conns[from].(taken := s.conns[from].taken + a.n)
            && s'.conns[to] == s.conns[to].(out := s.conns[to].out
                 + s.conns[from].sent[s.conns[from].taken..s.conns[from].taken + a.written])
  {
    hide HandlerStep, TakeHeader, TakeBody, ExpirationEvents;
  }

  /** Any other step leaves the ends of a bridge alone, but for what their peers do. */
  lemma OtherStep(s: State, a: Action, i: nat)
    requires Exclusive(s) && Enabled(s, a) && i < |s.links| && !((a.RelayUp? || a.RelayDown?) && a.link == i)
    requires s.links[i].one in s.conns && s.links[i].two in s.conns && s.links[i].one != s.links[i].two
    ensures EndsKept(s, Step(s, a), a, i)
  {
    hide Exclusive, HandlerStep, TakeHeader, TakeBody, Peers, ExpirationEvents, SweepOutcome, EncodeFrame, Relayed;
    hide Said, Deserialize, EncodeAll;
    PeersAre(s.links);
    var l := s.links[i];
    assert s.conns[l.one].sent + [] == s.conns[l.one].sent && s.conns[l.two].sent + [] == s.conns[l.two].sent;
    match a
    case HeaderArrives(c, what) =>
      ArmedAlone(s, c);
      HeaderElsewhere(s, c, what, l.one);
      HeaderElsewhere(s, c, what, l.two);
    case BodyArrives(c) =>
      ArmedAlone(s, c);
      BodyElsewhere(s, c, l.one);
      BodyElsewhere(s, c, l.two);
    case WriteTears(c, m, k) => WritingAlone(s, c);
    case Proceed(verdict, now) =>
      HandlerApart(s, l.one);
      HandlerApart(s, l.two);
      HandlerElsewhere(s, verdict, now, l.one);
      HandlerElsewhere(s, verdict, now, l.two);
    case RelayUp(j, n, written, ok) => RelayElsewhere(s, a, i, j);
    case RelayDown(j, n, written, ok) => RelayElsewhere(s, a, i, j);
    case _ =>
  }

  function Arriving(a: Action, c: ConnId): seq<byte> {
    if a.PeerSends? && a.c == c then a.bytes else []
  }

  ghost predicate EndsKept(s: State, s': State, a: Action, i: nat)
    requires i < |s.links| && s.links[i].one in s.conns && s.links[i].two in s.conns
  {
    var l := s.links[i];
    && i < |s'.links| && s'.links[i] == l && l.one in s'.conns && l.two in s'.conns
    && EndKept(s.conns[l.one], s'.conns[l.one], Arriving(a, l.one))
    && EndKept(s.conns[l.two], s'.conns[l.two], Arriving(a, l.two))
  }

  ghost predicate EndKept(conn: Conn, conn': Conn, arrived: seq<byte>) {
    conn' == conn.(sent := conn.sent + arrived, broken := conn'.broken)
  }

  lemma RelayElsewhere(s: State, a: Action, i: nat, j: nat)
    requires Exclusive(s) && Enabled(s, a) && i < |s.links| && (a.RelayUp? || a.RelayDown?) && a.link == j && i != j
    requires s.links[i].one in s.conns && s.links[i].two in s.conns
    ensures EndsKept(s, Step(s, a), a, i)
  {
    hide Exclusive, HandlerStep, TakeHeader, TakeBody, Peers;
    LinksApart(s, i, j);
    var l := s.links[i];
    assert s.conns[l.one].sent + [] == s.conns[l.one].sent && s.conns[l.two].sent + [] == s.conns[l.two].sent;
  }

  lemma LinksApart(s: State, i: nat, j: nat)
    requires Exclusive(s) && i < |s.links| && j < |s.links| && i != j
    ensures s.links[j].one != s.links[i].one && s.links[j].one != s.links[i].two
    ensures s.links[j].two != s.links[i].one && s.links[j].two != s.links[i].two
  {
    hide Peers, Waiting, Main, Node;
  }

  lemma HeaderElsewhere(s: State, c: ConnId, what: seq<byte>, x: ConnId)
    requires Enabled(s, HeaderArrives(c, what)) && x in s.conns && x != c
    ensures var s' := TakeHeader(s, c, what); x in s'.conns && s'.conns[x] == s.conns[x] && s'.links == s.links
  {
    hide Deserialize;
  }

  lemma BodyElsewhere(s: State, c: ConnId, x: ConnId)
    requires Enabled(s, BodyArrives(c)) && x in s.conns && x != c
    ensures var s' := TakeBody(s, c); x in s'.conns && s'.conns[x] == s.conns[x] && s'.links == s.links
  {
  }

  lemma HandlerApart(s: State, x: ConnId)
    requires Exclusive(s) && x in Peers(s.links)
    ensures x !in Main(s.thread) + Node(s.thread)
  {
    hide Peers, Waiting, Main, Node, OnceEach;
  }

  lemma HandlerElsewhere(s: State, verdict: Verdict, now: int, x: ConnId)
    requires Enabled(s, Proceed(verdict, now)) && x in s.conns && x !in Main(s.thread) + Node(s.thread)
    ensures var s' := HandlerStep(s, verdict, now); x in s'.conns && s'.conns[x] == s.conns[x] && s.links <= s'.links
  {
    hide Said, HandleFirst, HandleNext;
    if s.thread.FirstMessage? { FirstElsewhere(s, s.thread.c, s.thread.m, verdict, x); }
    if s.thread.NextMessage? { NextElsewhere(s, s.thread.c, s.thread.m, now, x); }
  }

  lemma FirstElsewhere(s: State, c: ConnId, m: Message, verdict: Verdict, x: ConnId)
    requires c in s.conns && x in s.conns && x != c
    ensures var s' := HandleFirst(s, c, m, verdict); x in s'.conns && s'.conns[x] == s.conns[x] && s'.links == s.links
  {
    hide Said, OnFirstMessage;
  }

  lemma NextElsewhere(s: State, c: ConnId, m: Message, now: int, x: ConnId)
    requires c in s.conns && x in s.conns && x != c
    ensures var s' := HandleNext(s, c, m, now); x in s'.conns && s'.conns[x] == s.conns[x] && s'.links == s.links
  {
    hide Said, NotExpected;
  }

  // ---------------------------------------------------------------- whole runs of a bridge

  /** How many times a run relays in this direction of the bridge. */
  ghost function Relayings(actions: seq<Action>, i: nat, up: bool): nat {
    if actions == [] then 0
    else
      (if (if up then actions[0].RelayUp? else actions[0].RelayDown?) && actions[0].link == i && actions[0].ok then 1
          else 0)
      + Relayings(actions[1..], i, up)
  }

  lemma {:induction false} MovesConcat(p: Relays.Pipe, a: seq<Relays.Move>, b: seq<Relays.Move>)
    requires Relays.CanRun(p, a) && Relays.CanRun(Relays.Run(p, a), b)
    ensures Relays.CanRun(p, a + b) && Relays.Run(p, a + b) == Relays.Run(Relays.Run(p, a), b)
    ensures Relays.HandlerRuns(a + b) == Relays.HandlerRuns(a) + Relays.HandlerRuns(b)
    decreases |a|
  {
    if a == [] {
      assert a + b == b;
    } else {
      MovesConcat(Relays.Apply(p, a[0]), a[1..], b);
      assert (a + b)[1..] == a[1..] + b;
    }
  }

  /** From a state where the bridge is there on: its direction goes on as a run of the relay. */
  lemma {:induction false} PipeGoesOn(s: State, actions: seq<Action>, i: nat, up: bool, before: seq<Relays.Move>)
    returns (ms: seq<Relays.Move>)
    requires Inv(s) && RendezvousTheorems.CanRun(s, actions) && HasPipe(s, i, up)
    requires Relays.CanRun(Relays.FRESH, before) && Relays.Run(Relays.FRESH, before) == PipeAt(s, i, up)
    ensures HasPipe(RendezvousTheorems.Run(s, actions), i, up) && Relays.CanRun(Relays.FRESH, ms)
    ensures Relays.Run(Relays.FRESH, ms) == PipeAt(RendezvousTheorems.Run(s, actions), i, up)
    ensures Relays.HandlerRuns(ms) == Relays.HandlerRuns(before) + Relayings(actions, i, up)
    decreases |actions|
  {
    hide Inv, Step, Enabled, PipeAt, HasPipe, Relays.CanRun, Relays.Run, Relays.HandlerRuns, MovesOf;
    if actions == [] {
      ms := before;
    } else {
      var a := actions[0];
      assert i < |s.links| by { PipeThere(s, i, up); }
      BridgeRefinesRelays(s, a, i, up);
      StepKeeps(s, a);
      var moves := MovesOf(a, s.links[i], i, up);
      MovesConcat(Relays.FRESH, before, moves);
      OneCounted(a, s.links[i], i, up);
      ms := PipeGoesOn(Step(s, a), actions[1..], i, up, before + moves);
    }
  }

  lemma PipeThere(s: State, i: nat, up: bool)
    requires HasPipe(s, i, up)
    ensures i < |s.links|
  {
  }

  lemma OneCounted(a: Action, l: Link, i: nat, up: bool)
    ensures Relays.HandlerRuns(MovesOf(a, l, i, up)) ==
            if (if up then a.RelayUp? else a.RelayDown?) && a.link == i && a.ok then 1 else 0
  {
  }

  /** In every run of the proxy and for every bridge it opened: what each direction has become is what a
      relay that starts empty becomes, with exactly as many handler runs as the proxy has relayed. So what
      holds of all runs of pipes holds of the proxy's bridges. */
  lemma {:induction false} BridgeIsRelayRun(s: State, actions: seq<Action>, i: nat,
      up: bool) returns (ms: seq<Relays.Move>)
    requires Inv(s) && RendezvousTheorems.CanRun(s, actions)
             && |s.links| <= i < |RendezvousTheorems.Run(s, actions).links|
    ensures HasPipe(RendezvousTheorems.Run(s, actions), i, up) && Relays.CanRun(Relays.FRESH, ms)
    ensures Relays.Run(Relays.FRESH, ms) == PipeAt(RendezvousTheorems.Run(s, actions), i, up)
    ensures Relays.HandlerRuns(ms) == Relayings(actions, i, up)
    decreases |actions|
  {
    hide Inv, Step, Enabled, PipeAt, HasPipe, Relays.CanRun, Relays.Run, Relays.HandlerRuns;
    var a, s1 := actions[0], Step(s, actions[0]);
    StepKeeps(s, a);
    LinksGrow(s, a);
    if |s1.links| <= i {
      ms := BridgeIsRelayRun(s1, actions[1..], i, up);
    } else {
      var first := NewPipe(s, a, up);
      ms := PipeGoesOn(s1, actions[1..], i, up, first);
    }
  }

  lemma LinksGrow(s: State, a: Action)
    requires Enabled(s, a)
    ensures var s' := Step(s, a);
            |s.links| <= |s'.links| <= |s.links| + 1
            && (|s'.links| > |s.links| ==> a.Proceed? && s.thread.OpenBridge? && s'.links[|s.links|].toOne == 0
                                           && s'.links[|s.links|].toTwo == 0 && s'.links[|s.links|].upLive
                                           && s'.links[|s.links|].downLive)
    ensures a.RelayUp? || a.RelayDown? ==> a.link < |s.links|
  {
    hide HandlerStep, TakeHeader, TakeBody, ExpirationEvents;
    match a
    case HeaderArrives(c, what) => HeaderLinks(s, c, what);
    case BodyArrives(c) => BodyLinks(s, c);
    case Proceed(verdict, now) => HandlerLinks(s, verdict, now);
    case _ =>
  }

  lemma HeaderLinks(s: State, c: ConnId, what: seq<byte>)
    requires Enabled(s, HeaderArrives(c, what))
    ensures TakeHeader(s, c, what).links == s.links
  {
    hide Deserialize;
  }

  lemma BodyLinks(s: State, c: ConnId)
    requires Enabled(s, BodyArrives(c))
    ensures TakeBody(s, c).links == s.links
  {
  }

  lemma HandlerLinks(s: State, verdict: Verdict, now: int)
    requires Enabled(s, Proceed(verdict, now))
    ensures HandlerStep(s, verdict, now).links ==
            if s.thread.OpenBridge? then s.links + [Link(s.thread.streamer, s.thread.c, 0, 0, true, true)] else s.links
  {
    hide Said, NotExpected, OnFirstMessage;
  }

  /** A bridge that has just opened has relayed nothing. */
  lemma NewPipe(s: State, a: Action, up: bool) returns (ms: seq<Relays.Move>)
    requires Inv(s) && Enabled(s, a) && |Step(s, a).links| > |s.links|
    ensures HasPipe(Step(s, a), |s.links|, up) && Relays.CanRun(Relays.FRESH, ms) && Relays.HandlerRuns(ms) == 0
    ensures Relays.Run(Relays.FRESH, ms) == PipeAt(Step(s, a), |s.links|, up)
    ensures !a.RelayUp? && !a.RelayDown?
  {
    hide Inv, Step, Enabled, Exclusive, LinksOk, Ended, EncodeAll;
    LinksGrow(s, a);
    StepKeeps(s, a);
    var s1, i := Step(s, a), |s.links|;
    RendezvousTheorems.InvParts(s1);
    LinkAt(s1, i);
    PipeIsThere(s1, i, up);
    var p := PipeAt(s1, i, up);
    assert p.sink == [] && p.live && p.taken == 0;
    ms := [Relays.Arrive(p.source)];
    OneMove(Relays.FRESH, ms[0]);
    assert [] + p.source == p.source;
  }

  /** So a live direction of a bridge has taken at least as many handler runs as full buffers would have
      needed, and at most as many as there were bytes. */
  lemma RoundsOfBridge(actions: seq<Action>, i: nat, up: bool)
    requires RendezvousTheorems.CanRun(INITIAL, actions) && i < |RendezvousTheorems.Run(INITIAL, actions).links|
    requires Live(RendezvousTheorems.Run(INITIAL, actions).links[i], up)
    ensures HasPipe(RendezvousTheorems.Run(INITIAL, actions), i, up)
    ensures var n := PipeAt(RendezvousTheorems.Run(INITIAL, actions), i, up).taken;
            (n + 999_999) / 1_000_000 <= Relayings(actions, i, up) <= n
  {
    hide Inv, Step, Enabled, Relays.CanRun, Relays.Run, Relays.HandlerRuns;
    RendezvousTheorems.InitialInv();
    var ms := BridgeIsRelayRun(INITIAL, actions, i, up);
    Relays.RelayedPerRun(Relays.FRESH, ms);
  }

  // ---------------------------------------------------------------- reading

  /** The input of a connection from the last frame boundary on, as in `SocketBase.Unconsumed`. */
  ghost function Unconsumed(conn: Conn, arm: Arm): seq<byte>
    requires conn.taken <= |conn.sent|
  {
    (if arm.header.Some? then HeaderBytes(arm.header.value) else []) + conn.sent[conn.taken..]
  }

  /** The reads of the system meet the contract of `SocketBase.ReadCompletes`: a header is accepted
      without losing a byte of the frame, or refused exactly as the next frame's header is malformed;
      a body completes exactly the next frame, and nothing past it is consumed. */
  lemma ReadsAsSocket(s: State, c: ConnId, what: seq<byte>)
    requires RendezvousTheorems.Reachable(s) && c in s.armed && c in s.conns
    ensures s.conns[c].taken <= |s.conns[c].sent|
    ensures Enabled(s, HeaderArrives(c, what)) ==>
              var s', limit, input := Step(s, HeaderArrives(c, what)), Limit(s.armed[c].gate),
                  Unconsumed(s.conns[c], s.armed[c]);
              && c in s'.conns && s'.conns[c].taken <= |s'.conns[c].sent|
              && (if c in s'.armed then s'.armed[c].header.Some? && Unconsumed(s'.conns[c], s'.armed[c]) == input
                  else ReadFrame(input, limit).Malformed? && s'.thread == Unwinding(c, what))
    ensures Enabled(s, BodyArrives(c)) ==>
              var s', limit, input := Step(s, BodyArrives(c)), Limit(s.armed[c].gate),
                  Unconsumed(s.conns[c], s.armed[c]);
              && c in s'.conns && c !in s'.armed && (s'.thread.FirstMessage? || s'.thread.NextMessage?)
                 && s'.thread.c == c
              && var size := HEADER_SIZE + |s'.thread.m.content|;
              && ReadFrame(input, limit) == Complete(s'.thread.m, size)
              && s'.conns[c].taken <= |s'.conns[c].sent| && s'.conns[c].sent[s'.conns[c].taken..] == input[size..]
  {
    hide RendezvousTheorems.Reachable, Inv, Step, Enabled;
    RendezvousTheorems.ReachableInv(s);
    RendezvousTheorems.InvParts(s);
    ArmedAt(s, c);
    if Enabled(s, HeaderArrives(c, what)) { HeaderAsSocket(s, c, what); }
    if Enabled(s, BodyArrives(c)) { BodyAsSocket(s, c); }
  }

  lemma HeaderAsSocket(s: State, c: ConnId, what: seq<byte>)
    requires Enabled(s, HeaderArrives(c, what))
    ensures var s', limit, input := Step(s, HeaderArrives(c, what)), Limit(s.armed[c].gate),
            Unconsumed(s.conns[c], s.armed[c]);
            && c in s'.conns && s'.conns[c].taken <= |s'.conns[c].sent|
            && (if c in s'.armed then s'.armed[c].header.Some? && Unconsumed(s'.conns[c], s'.armed[c]) == input
                else ReadFrame(input, limit).Malformed? && s'.thread == Unwinding(c, what))
  {
    hide Deserialize, HandlerStep, TakeBody, Relayed, ExpirationEvents, HeaderBytes;
    var conn, limit := s.conns[c], Limit(s.armed[c].gate);
    var input := Unconsumed(conn, s.armed[c]);
    var piece := conn.sent[conn.taken..conn.taken + HEADER_SIZE];
    assert input == conn.sent[conn.taken..];
    assert input[..HEADER_SIZE] == piece;
    DeserializeExact(piece, limit);
    assert piece[..HEADER_SIZE] == piece;
    if Deserialize(piece, limit).Ok? {
      assert HeaderBytes(Deserialize(piece, limit).value) + conn.sent[conn.taken + HEADER_SIZE..]
             == conn.sent[conn.taken..];
    }
  }

  lemma BodyAsSocket(s: State, c: ConnId)
    requires Enabled(s, BodyArrives(c)) && ArmedConn(s.conns[c], s.armed[c])
    ensures var s', limit, input := Step(s, BodyArrives(c)), Limit(s.armed[c].gate), Unconsumed(s.conns[c], s.armed[c]);
            && c in s'.conns && c !in s'.armed && (s'.thread.FirstMessage? || s'.thread.NextMessage?)
               && s'.thread.c == c
            && var size := HEADER_SIZE + |s'.thread.m.content|;
            && ReadFrame(input, limit) == Complete(s'.thread.m, size)
            && s'.conns[c].taken <= |s'.conns[c].sent| && s'.conns[c].sent[s'.conns[c].taken..] == input[size..]
  {
    hide HandlerStep, TakeHeader, Relayed, ExpirationEvents, HeaderBytes, ReadTo, ReadFrame, Talk;
    var conn, h := s.conns[c], s.armed[c].header.value;
    var rest := conn.sent[conn.taken..];
    Sockets.ResumedFrame(h, Limit(s.armed[c].gate), rest);
    assert rest[..h.length] == conn.sent[conn.taken..conn.taken + h.length];
    assert (HeaderBytes(h) + rest)[HEADER_SIZE + h.length..] == conn.sent[conn.taken + h.length..];
  }
}
