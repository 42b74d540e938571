/** The viewer's loop: frames in, events out (src/ScreenViewerClient.cpp). */
module ViewerClient {
  import opened Messages
  import opened Framing
  import opened Sockets
  import opened Input
  import opened Viewer

  function Min(a: nat, b: nat): nat {
    if a <= b then a else b
  }

  const INITIAL_VIEW := View(800, 600, 800, 600)

  // ---------------------------------------------------------------- what was polled

  /** An event taken out of SDL's queue (or a new frame), and whether it came too late to be handled. */
  datatype Poll = Poll(event: ViewerEvent, lost: bool)

  /** The events of a history, with those that were lost or without. */
  function Events(ps: seq<Poll>, lostToo: bool): seq<ViewerEvent> {
    if ps == [] then []
    else Events(ps[..|ps| - 1], lostToo) + if ps[|ps| - 1].lost && !lostToo then [] else [ps[|ps| - 1].event]
  }

  function Told(ps: seq<Poll>): seq<ViewerEvent> {
    Events(ps, false)
  }

  function Seen(ps: seq<Poll>): seq<ViewerEvent> {
    Events(ps, true)
  }

  function InTime(es: seq<ViewerEvent>): seq<Poll> {
    seq(|es|, i requires 0 <= i < |es| => Poll(es[i], false))
  }

  /** What one call of `handleIOEvents` polls when `budget` polls find the time not up: the loop asks for
      the next event before it looks at the clock, so the event polled after those is lost. */
  function CallPolls(queue: seq<ViewerEvent>, budget: nat): seq<Poll> {
    InTime(queue[..Min(budget, |queue|)]) + if |queue| > budget then [Poll(queue[budget], true)] else []
  }

  lemma {:induction false} EventsConcat(a: seq<Poll>, b: seq<Poll>, lostToo: bool)
    ensures Events(a + b, lostToo) == Events(a, lostToo) + Events(b, lostToo)
    decreases |b|
  {
    if b == [] {
      assert a + b == a;
    } else {
      EventsConcat(a, b[..|b| - 1], lostToo);
      assert (a + b)[..|a + b| - 1] == a + b[..|b| - 1];
    }
  }

  lemma {:induction false} InTimeEvents(es: seq<ViewerEvent>, lostToo: bool)
    ensures Events(InTime(es), lostToo) == es
    decreases |es|
  {
    if es != [] {
      InTimeEvents(es[..|es| - 1], lostToo);
      assert InTime(es)[..|es| - 1] == InTime(es[..|es| - 1]);
    }
  }

  lemma CallEvents(ps: seq<Poll>, queue: seq<ViewerEvent>, budget: nat)
    ensures Told(ps + CallPolls(queue, budget)) == Told(ps) + queue[..Min(budget, |queue|)]
    ensures Seen(ps + CallPolls(queue, budget)) == Seen(ps) + queue[..Min(budget + 1, |queue|)]
  {
    hide Events;
    var n := Min(budget, |queue|);
    LastEvent(queue, budget);
    forall lostToo: bool ensures Events(ps + CallPolls(queue, budget), lostToo) ==
                                 Events(ps, lostToo) + (queue[..n] + Events(CallPolls(queue, budget)[n..], lostToo))
    {
      var late := CallPolls(queue, budget)[n..];
      assert CallPolls(queue, budget) == InTime(queue[..n]) + late;
      EventsConcat(ps, CallPolls(queue, budget), lostToo);
      EventsConcat(InTime(queue[..n]), late, lostToo);
      InTimeEvents(queue[..n], lostToo);
    }
    assert Told(ps + CallPolls(queue, budget)) == Events(ps + CallPolls(queue, budget), false);
    assert Seen(ps + CallPolls(queue, budget)) == Events(ps + CallPolls(queue, budget), true);
  }

  lemma LastEvent(queue: seq<ViewerEvent>, budget: nat)
    ensures var n := Min(budget, |queue|); var late := CallPolls(queue, budget)[n..];
            Events(late, false) == [] && queue[..n] + Events(late, true) == queue[..Min(budget + 1, |queue|)]
  {
    var n := Min(budget, |queue|);
    var late := CallPolls(queue, budget)[n..];
    if |queue| > budget {
      assert late == [Poll(queue[budget], true)] && late[..0] == [];
    } else {
      assert late == [];
    }
  }

  // ---------------------------------------------------------------- the loop

  datatype Outcome = Continue | Quitted | ReadFailed | WriteFailed

  /** What the world puts into one turn of the loop: what the decoder makes of a frame, if anything, which
      events arrive meanwhile, and how many polls find the time not up. */
  datatype Turn = Turn(image: Option<(int, int)>, arrived: seq<ViewerEvent>, budget: nat)

  /** A frame of another size is one more thing that happened. */
  function FramePolls(v: View, image: Option<(int, int)>): seq<Poll> {
    if image.Some? && (image.value.0 != v.frameHeight || image.value.1 != v.frameWidth)
    then [Poll(FrameResized(image.value.1, image.value.0), false)] else []
  }

  datatype Progress = Progress(queue: seq<ViewerEvent>, polls: seq<Poll>)

  /** The loop's turns, one for each of the messages `ms` that it received, none of which ends it. */
  function TurnsTaken(p: Progress, turns: seq<Turn>, ms: seq<Message>): Progress
    requires |ms| == |turns|
    decreases |turns|
  {
    if turns == [] then p
    else
      var n := |turns| - 1;
      OneTurn(TurnsTaken(p, turns[..n], ms[..n]), turns[n], ms[n])
  }

  function OneTurn(p: Progress, turn: Turn, m: Message): Progress {
    var queue := p.queue + turn.arrived;
    Progress(queue[Min(turn.budget + 1, |queue|)..], p.polls + NewFrame(p, turn, m) + CallPolls(queue, turn.budget))
  }

  function NewFrame(p: Progress, turn: Turn, m: Message): seq<Poll> {
    if m.kind == SCREEN_UPDATE then FramePolls(ViewAfterAll(INITIAL_VIEW, Told(p.polls)), turn.image) else []
  }

  /** A message is a new frame exactly if it is a SCREEN_UPDATE that decodes to an image of another size, and
      then that is the frame's size. */
  lemma NewFrameTaken(p: Progress, turn: Turn, m: Message)
    ensures var view := ViewAfterAll(INITIAL_VIEW, Told(p.polls));
            NewFrame(p, turn, m) ==
            if m.kind == SCREEN_UPDATE && turn.image.Some? && turn.image.value != (view.frameHeight, view.frameWidth)
            then [Poll(FrameResized(turn.image.value.1, turn.image.value.0), false)] else []
  {
  }

  /** A turn that is the last one, while its `n`-th event is handled. */
  ghost predicate LastTurn(p: Progress, turn: Turn, m: Message, r: Outcome, n: nat, p': Progress) {
    var queue := p.queue + turn.arrived;
    && 0 < n <= Min(turn.budget, |queue|) && StopsAt(queue, n, r)
    && p' == Progress(queue[n..], p.polls + NewFrame(p, turn, m) + InTime(queue[..n]))
  }

  ghost predicate FromSdl(es: seq<ViewerEvent>) {
    Ordinary(es) && forall e :: e in es ==> !e.FrameResized?
  }

  /** The loop is left while the `n`-th event is handled: because it is the user's wish to quit, or because
      its message could not be written. */
  ghost predicate StopsAt(queue: seq<ViewerEvent>, n: nat, r: Outcome)
    requires 0 < n <= |queue|
  {
    (forall i :: 0 <= i < n - 1 ==> !queue[i].Quit?) && (r.Quitted? <==> queue[n - 1].Quit?)
  }

  class ScreenViewerClient {
    const socket: SocketBase
    var view: View
    var queue: seq<ViewerEvent>   // SDL's event queue

    ghost var polls: seq<Poll>    // everything polled, and every new frame size, from the beginning
    ghost const before: seq<byte> // what had been written to the socket before

    constructor (socket: SocketBase)
      requires socket.Valid() && socket.stream.open
      ensures Valid() && UpToDate() && this.socket == socket && view == View(800, 600, 800, 600) && queue == []
      ensures polls == []
      ensures before == socket.stream.outbound
    {
      this.socket := socket;
      view, queue := INITIAL_VIEW, [];
      polls, before := [], socket.stream.outbound;
    }

    /** The view is what the events handled make of it, and nothing but their messages was written, in
        order, up to where the connection broke. */
    ghost predicate Valid()
      reads this, socket, socket.stream
    {
      && socket.Valid() && socket.stream.open
      && Ordinary(Told(polls)) && Sized(view) && view == ViewAfterAll(INITIAL_VIEW, Told(polls))
      && before <= socket.stream.outbound <= before + EncodeAll(MessagesOf(InputsOf(INITIAL_VIEW, Told(polls))))
      && FromSdl(queue)
    }

    /** All of the messages were written. */
    ghost predicate UpToDate()
      reads this, socket, socket.stream
      requires Valid()
    {
      socket.stream.outbound == before + EncodeAll(MessagesOf(InputsOf(INITIAL_VIEW, Told(polls))))
    }

    /** A decoded frame of another size becomes the new frame size; one that could not be decoded changes
        nothing. */
    method GetNewFrame(image: Option<(int, int)>)
      requires Valid() && UpToDate() && (image.Some? ==> image.value.0 > 0 && image.value.1 > 0)
      modifies this`view, this`polls
      ensures Valid() && UpToDate()
      ensures view == if image.None? then old(view)
                      else old(view).(frameHeight := image.value.0, frameWidth := image.value.1)
      ensures polls == old(polls) + FramePolls(old(view), image)
    {
      hide InputOf, ViewAfterAll, InputsOf, MessagesOf, EncodeAll, Events;
      if image.Some? {
        var (rows, cols) := image.value;
        if rows != view.frameHeight || cols != view.frameWidth {
          NextEvent(polls, FrameResized(cols, rows), before);
          view := view.(frameHeight := rows, frameWidth := cols);
          polls := polls + [Poll(FrameResized(cols, rows), false)];
        }
      }
    }

    /** Handles events until the queue is empty, the poll time is up or the user quits. Each handled event
        becomes at most one message, in order; the event polled too late is gone, neither handled nor in
        the queue any more. */
    method HandleIOEvents(budget: nat) returns (r: Outcome)
      requires Valid() && UpToDate()
      modifies this`view, this`queue, this`polls, socket.stream`outbound, socket.stream`broken
      ensures Valid() && !r.ReadFailed? && (if r.WriteFailed? then socket.stream.broken else UpToDate())
      ensures r.Continue? ==> (forall i :: 0 <= i < Min(budget, |old(queue)|) ==> !old(queue)[i].Quit?)
                              && polls == old(polls) + CallPolls(old(queue), budget)
                              && queue == old(queue)[Min(budget + 1, |old(queue)|)..]
      ensures !r.Continue? ==> exists n ::
                                 && 0 < n <= Min(budget, |old(queue)|) && StopsAt(old(queue), n, r)
                                 && polls == old(polls) + InTime(old(queue)[..n]) && queue == old(queue)[n..]
    {
      hide InputOf, ViewAfterAll, InputsOf, MessagesOf, EncodeAll, Events, CallPolls, InTime;
      var n := 0;
      ghost var all := queue;
      NothingPolled(polls, all);
      while |queue| > 0
        invariant n <= Min(budget, |all|) && queue == all[n..] && all == old(queue)
        invariant Valid() && UpToDate() && polls == old(polls) + InTime(all[..n])
        invariant forall i :: 0 <= i < n ==> !all[i].Quit?
        decreases |queue|
      {
        var e := queue[0];
        assert e in queue;
        queue := queue[1..];  // SDL_PollEvent
        if n >= budget {
          CallIs(old(polls), all, budget);
          LostEvent(polls, e);
          polls := polls + [Poll(e, true)];
          r := Continue;
          return;
        }
        InTimeAppend(old(polls), all, n);
        r := HandleEvent(e);
        n := n + 1;
        if !r.Continue? { return; }
      }
      CallIs(old(polls), all, budget);
      r := Continue;
    }

    // one case of the switch on the event's type
    method HandleEvent(e: ViewerEvent) returns (r: Outcome)
      requires Valid() && UpToDate() && Ordinary([e]) && !e.FrameResized?
      modifies this`view, this`polls, socket.stream`outbound, socket.stream`broken
      ensures Valid() && polls == old(polls) + [Poll(e, false)]
      ensures r.Quitted? <==> e.Quit?
      ensures !r.ReadFailed? && (if r.WriteFailed? then socket.stream.broken else UpToDate())
    {
      hide InputOf, ViewAfterAll, InputsOf, MessagesOf, EncodeFrame, EncodeAll, Chunks, Events;
      NextEvent(polls, e, before);
      polls := polls + [Poll(e, false)];
      var input := InputOf(view, e);
      if e.Quit? {
        SendsNothing(view, e);
        r := Quitted;
        return;
      } else if e.WindowResized? {
        SendsNothing(view, e);
        view := view.(windowWidth := e.width, windowHeight := e.height);
      } else if input.Some? {
        SmallInput(input.value);
        var ok := socket.Send(EncodeInput(input.value));
        if !ok { return Outcome.WriteFailed; }
      }
      r := Continue;
    }

    /** `runLoop`, for as many turns as the world provides: a message, the new frame if it is one, and the
        events. As long as nothing ends it, it takes the turns of `TurnsTaken`, consuming exactly one
        message in each. It ends early when the input holds no further message, when the user quits, or when
        a message cannot be written; and however it ends, the view and the bytes written are those of the
        events told. */
    method RunLoop(turns: seq<Turn>) returns (r: Outcome, ghost ms: seq<Message>)
      requires Valid() && UpToDate()
      requires forall t :: t in turns ==>
                 FromSdl(t.arrived) && (t.image.Some? ==> t.image.value.0 > 0 && t.image.value.1 > 0)
      modifies this`view, this`queue, this`polls, socket.stream`inbound, socket.stream`outbound, socket.stream`broken,
               socket.dataBuffer
      ensures Valid() && (if r.WriteFailed? then socket.stream.broken else UpToDate())
      ensures |ms| <= |turns| && AllFit(ms) && EncodeAll(ms) <= old(socket.stream.inbound)
      ensures !r.ReadFailed? ==> socket.stream.inbound == old(socket.stream.inbound)[|EncodeAll(ms)|..]
      ensures var start, end := Progress(old(queue), old(polls)), Progress(queue, polls);
              match r
              case Continue => |ms| == |turns| && end == TurnsTaken(start, turns, ms)
              case ReadFailed =>
                && |ms| < |turns| && end == TurnsTaken(start, turns[..|ms|], ms)
                && !ReadFrame(old(socket.stream.inbound)[|EncodeAll(ms)|..], BUFFER_SIZE).Complete?
              case _ =>
                && ms != [] && var k := |ms| - 1;
                exists n :: LastTurn(TurnsTaken(start, turns[..k], ms[..k]), turns[k], ms[k], r, n, end)
    {
      hide InputOf, ViewAfterAll, InputsOf, MessagesOf, EncodeAll, Events, CallPolls, InTime, FramePolls, TurnsTaken;
      hide AllFit, ReadFrame, LastTurn, OneTurn;
      ms := [];
      ghost var start, all := Progress(queue, polls), socket.stream.inbound;
      StartsWith(start, all);
      assert turns[..0] == [];
      for i := 0 to |turns|
        invariant Valid() && UpToDate()
        invariant |ms| == i && AllFit(ms) && all == EncodeAll(ms) + socket.stream.inbound
        invariant Progress(queue, polls) == TurnsTaken(start, turns[..i], ms)
      {
        ghost var input, before := socket.stream.inbound, Progress(queue, polls);
        Behind(all, EncodeAll(ms), input);
        ghost var m;
        r, m := TakeTurn(turns[i]);
        if r.ReadFailed? { return; }
        OneMessage(all, ms, input, m);
        NextTurn(start, turns, i, ms, m);
        ms := ms + [m];
        Behind(all, EncodeAll(ms), socket.stream.inbound);
        if !r.Continue? {
          assert ms[..i] + [ms[i]] == ms && ms[..i] == ms[..|ms| - 1];
          return;
        }
      }
      assert turns[..|turns|] == turns;
      Behind(all, EncodeAll(ms), socket.stream.inbound);
      r := Continue;
    }

    // the body of the loop
    method TakeTurn(turn: Turn) returns (r: Outcome, ghost m: Message)
      requires Valid() && UpToDate()
      requires FromSdl(turn.arrived) && (turn.image.Some? ==> turn.image.value.0 > 0 && turn.image.value.1 > 0)
      modifies this`view, this`queue, this`polls, socket.stream`inbound, socket.stream`outbound, socket.stream`broken,
               socket.dataBuffer
      ensures Valid() && (if r.WriteFailed? then socket.stream.broken else UpToDate())
      ensures r.ReadFailed? ==> queue == old(queue) && polls == old(polls)
                                && !ReadFrame(old(socket.stream.inbound), BUFFER_SIZE).Complete?
      ensures !r.ReadFailed? ==>
                && (exists n: nat :: ReadFrame(old(socket.stream.inbound), BUFFER_SIZE) == Complete(m, n))
                && |old(socket.stream.inbound)| >= HEADER_SIZE + |m.content|
                && socket.stream.inbound == old(socket.stream.inbound)[HEADER_SIZE + |m.content|..]
      ensures r.Continue? ==> Progress(queue, polls) == OneTurn(Progress(old(queue), old(polls)), turn, m)
      ensures r.Quitted? || r.WriteFailed? ==>
                exists n :: LastTurn(Progress(old(queue), old(polls)), turn, m, r, n, Progress(queue, polls))
    {
      hide InputOf, ViewAfterAll, InputsOf, MessagesOf, EncodeAll, Events, CallPolls, InTime, FramePolls;
      hide ReadFrame, FromSdl, Sized, StopsAt, LastTurn, OneTurn;
      m := Message(JUST_A_MESSAGE, []);
      var msg := socket.ReceiveToBuffer();
      if msg.Err? { r := ReadFailed; return; }
      m := socket.Content(msg.value);
      FrameThere(old(socket.stream.inbound), m);
      if msg.value.kind == SCREEN_UPDATE {
        GetNewFrame(turn.image);
      } else {
        assert polls + [] == polls;
      }
      StillFromSdl(queue, turn.arrived);
      queue := queue + turn.arrived;
      ghost var before := Progress(old(queue), old(polls));
      assert polls == old(polls) + NewFrame(before, turn, m);
      ghost var all, start := queue, polls;
      r := HandleIOEvents(turn.budget);
      if !r.Continue? {
        ghost var n :| 0 < n <= Min(turn.budget, |all|) && StopsAt(all, n, r)
                       && polls == start + InTime(all[..n]) && queue == all[n..];
        IsLastTurn(before, turn, m, r, n, Progress(queue, polls));
      } else {
        IsOneTurn(before, turn, m, Progress(queue, polls));
      }
    }
  }

  lemma StillFromSdl(a: seq<ViewerEvent>, b: seq<ViewerEvent>)
    requires FromSdl(a) && FromSdl(b)
    ensures FromSdl(a + b)
  {
  }

  lemma IsOneTurn(p: Progress, turn: Turn, m: Message, p': Progress)
    requires var queue := p.queue + turn.arrived;
             p' == Progress(queue[Min(turn.budget + 1, |queue|)..],
                            p.polls + NewFrame(p, turn, m) + CallPolls(queue, turn.budget))
    ensures p' == OneTurn(p, turn, m)
  {
    hide NewFrame, CallPolls;
  }

  lemma IsLastTurn(p: Progress, turn: Turn, m: Message, r: Outcome, n: nat, p': Progress)
    requires var queue := p.queue + turn.arrived;
             && 0 < n <= Min(turn.budget, |queue|) && StopsAt(queue, n, r)
             && p' == Progress(queue[n..], p.polls + NewFrame(p, turn, m) + InTime(queue[..n]))
    ensures LastTurn(p, turn, m, r, n, p')
  {
    hide NewFrame, StopsAt, InTime;
  }

  lemma Behind(all: seq<byte>, done: seq<byte>, rest: seq<byte>)
    requires all == done + rest
    ensures done <= all && all[|done|..] == rest
  {
  }

  lemma FrameThere(input: seq<byte>, m: Message)
    requires exists n: nat :: ReadFrame(input, BUFFER_SIZE) == Complete(m, n)
    ensures |input| >= HEADER_SIZE + |m.content|
  {
    ReadFrameExact(input, BUFFER_SIZE, m);
  }

  lemma StartsWith(p: Progress, input: seq<byte>)
    ensures TurnsTaken(p, [], []) == p && AllFit([]) && EncodeAll([]) + input == input
  {
  }

  lemma OneMessage(all: seq<byte>, ms: seq<Message>, input: seq<byte>, m: Message)
    requires all == EncodeAll(ms) + input && AllFit(ms)
    requires exists n: nat :: ReadFrame(input, BUFFER_SIZE) == Complete(m, n)
    ensures |input| >= HEADER_SIZE + |m.content| && AllFit(ms + [m])
    ensures all == EncodeAll(ms + [m]) + input[HEADER_SIZE + |m.content|..]
  {
    hide EncodeAll, EncodeFrame, ReadFrame;
    ReadFrameExact(input, BUFFER_SIZE, m);
    EncodeAppend(ms, m);
    Rejoin(EncodeAll(ms), EncodeFrame(m), input);
  }

  lemma Rejoin(done: seq<byte>, next: seq<byte>, input: seq<byte>)
    requires next <= input
    ensures done + input == done + next + input[|next|..]
  {
  }

  lemma NextTurn(p: Progress, turns: seq<Turn>, i: nat, ms: seq<Message>, m: Message)
    requires |ms| == i < |turns|
    ensures TurnsTaken(p, turns[..i + 1], ms + [m]) == OneTurn(TurnsTaken(p, turns[..i], ms), turns[i], m)
  {
    hide OneTurn;
    assert turns[..i + 1][..i] == turns[..i] && (ms + [m])[..i] == ms;
  }

  lemma CallIs(ps: seq<Poll>, queue: seq<ViewerEvent>, budget: nat)
    ensures ps + CallPolls(queue, budget) ==
            ps + InTime(queue[..Min(budget, |queue|)]) + if |queue| > budget then [Poll(queue[budget], true)] else []
  {
  }

  lemma NothingPolled(ps: seq<Poll>, all: seq<ViewerEvent>)
    ensures ps + InTime(all[..0]) == ps
  {
  }

  lemma InTimeAppend(ps: seq<Poll>, all: seq<ViewerEvent>, n: nat)
    requires n < |all|
    ensures ps + InTime(all[..n + 1]) == ps + InTime(all[..n]) + [Poll(all[n], false)]
  {
    assert InTime(all[..n + 1]) == InTime(all[..n]) + [Poll(all[n], false)];
  }

  lemma LostEvent(ps: seq<Poll>, e: ViewerEvent)
    ensures Told(ps + [Poll(e, true)]) == Told(ps)
  {
    assert (ps + [Poll(e, true)])[..|ps|] == ps;
  }

  lemma SendsNothing(v: View, e: ViewerEvent)
    requires Sized(v) && (e.Quit? || e.WindowResized? || e.FrameResized?)
    ensures InputOf(v, e) == None
  {
  }

  lemma SmallInput(i: Input)
    ensures EncodeAll(Chunks(EncodeInput(i))) == EncodeFrame(EncodeInput(i))
  {
    SmallMessageIsOneFrame(EncodeInput(i));
  }

  /** One more event handled: the view changes accordingly and its message, if any, is the next one. */
  lemma NextEvent(ps: seq<Poll>, e: ViewerEvent, before: seq<byte>)
    requires Ordinary(Told(ps)) && Ordinary([e]) && Sized(ViewAfterAll(INITIAL_VIEW, Told(ps)))
    ensures Ordinary(Told(ps + [Poll(e, false)])) && (e.MouseButton? ==> 1 <= e.button <= 5)
    ensures e.WindowResized? || e.FrameResized? ==> e.width > 0 && e.height > 0
    ensures ViewAfterAll(INITIAL_VIEW, Told(ps + [Poll(e, false)]))
            == ViewAfter(ViewAfterAll(INITIAL_VIEW, Told(ps)), e)
    ensures var i := InputOf(ViewAfterAll(INITIAL_VIEW, Told(ps)), e);
            before + EncodeAll(MessagesOf(InputsOf(INITIAL_VIEW, Told(ps + [Poll(e, false)]))))
            == before + EncodeAll(MessagesOf(InputsOf(INITIAL_VIEW, Told(ps))))
                + (if i.Some? then EncodeFrame(EncodeInput(i.value)) else [])
    ensures e.FrameResized? ==> InputOf(ViewAfterAll(INITIAL_VIEW, Told(ps)), e) == None
  {
    hide InputOf, ViewAfterAll, InputsOf, MessagesOf, EncodeInput, EncodeFrame, EncodeAll;
    var es, v := Told(ps), INITIAL_VIEW;
    assert Told(ps + [Poll(e, false)]) == es + [e] by { assert (ps + [Poll(e, false)])[..|ps|] == ps; }
    assert e in [e];
    InputsAppend(v, es, e);
    ViewAppend(v, es, e);
    var inputs, i := InputsOf(v, es), InputOf(ViewAfterAll(v, es), e);
    if e.FrameResized? { SendsNothing(ViewAfterAll(v, es), e); }
    if i.Some? {
      MessagesAppend(inputs, i.value);
      EncodeAppend(MessagesOf(inputs), EncodeInput(i.value));
      Associate(before, EncodeAll(MessagesOf(inputs)), EncodeFrame(EncodeInput(i.value)));
    } else {
      assert inputs + [] == inputs;
    }
  }

  lemma Associate(a: seq<byte>, b: seq<byte>, c: seq<byte>)
    ensures a + (b + c) == a + b + c
  {
  }

  lemma MessagesAppend(inputs: seq<Input>, i: Input)
    ensures MessagesOf(inputs + [i]) == MessagesOf(inputs) + [EncodeInput(i)]
  {
  }

  lemma {:induction false} ViewAppend(v: View, es: seq<ViewerEvent>, e: ViewerEvent)
    ensures ViewAfterAll(v, es + [e]) == ViewAfter(ViewAfterAll(v, es), e)
    decreases |es|
  {
    if es == [] {
      assert [] + [e] == [e];
    } else {
      assert (es + [e])[1..] == es[1..] + [e];
      ViewAppend(ViewAfter(v, es[0]), es[1..], e);
    }
  }

  // ---------------------------------------------------------------- the events polled too late

  predicate IsAbout(p: Poll, button: nat, lostToo: bool) {
    p.event.MouseButton? && p.event.button == button && (lostToo || !p.lost)
  }

  /** Whether the last of the first `n` polls that concern the button (the lost ones included or not)
      pressed it. */
  ghost predicate LastPressed(ps: seq<Poll>, n: nat, button: nat, lostToo: bool)
    requires n <= |ps|
  {
    exists i :: 0 <= i < n && IsAbout(ps[i], button, lostToo) && ps[i].event.down
                && forall k :: i < k < n ==> !IsAbout(ps[k], button, lostToo)
  }

  /** A button event that was lost, that nothing else about the button has followed, and that does not
      merely repeat how the handled events left the button. */
  ghost predicate Mistold(ps: seq<Poll>, j: nat)
    requires j < |ps|
  {
    && ps[j].lost && ps[j].event.MouseButton?
    && (forall k :: j < k < |ps| ==> !IsAbout(ps[k], ps[j].event.button, true))
    && ps[j].event.down != LastPressed(ps, j, ps[j].event.button, false)
  }

  ghost predicate MistoldAbout(ps: seq<Poll>, j: nat, button: nat)
    requires j < |ps|
  {
    Mistold(ps, j) && ps[j].event.button == button
  }

  lemma {:induction false} HeldIsLastPressed(ps: seq<Poll>, button: nat, lostToo: bool)
    ensures button in SdlHeld(Events(ps, lostToo)) <==> LastPressed(ps, |ps|, button, lostToo)
    decreases |ps|
  {
    if ps != [] {
      var front, last := ps[..|ps| - 1], ps[|ps| - 1];
      HeldIsLastPressed(front, button, lostToo);
      var es := Events(front, lostToo);
      if !last.lost || lostToo {
        assert (es + [last.event])[..|es|] == es;
        assert SdlHeld(es + [last.event]) == SdlPressed(SdlHeld(es), last.event);
      } else {
        assert es + [] == es;
      }
      if IsAbout(last, button, lostToo) {
        assert LastPressed(ps, |ps|, button, lostToo) <==> last.event.down;
      } else {
        LastPressedBefore(ps, |ps| - 1, |ps|, button, lostToo);
        SameLastPressed(ps, front, button, lostToo);
      }
    }
  }

  lemma LastPressedBefore(ps: seq<Poll>, m: nat, n: nat, button: nat, lostToo: bool)
    requires m <= n <= |ps| && forall k :: m <= k < n ==> !IsAbout(ps[k], button, lostToo)
    ensures LastPressed(ps, n, button, lostToo) <==> LastPressed(ps, m, button, lostToo)
  {
    if LastPressed(ps, n, button, lostToo) {
      var i :| 0 <= i < n && IsAbout(ps[i], button, lostToo) && ps[i].event.down
               && forall k :: i < k < n ==> !IsAbout(ps[k], button, lostToo);
      assert i < m;
    }
  }

  lemma SameLastPressed(ps: seq<Poll>, front: seq<Poll>, button: nat, lostToo: bool)
    requires front <= ps
    ensures LastPressed(ps, |front|, button, lostToo) <==> LastPressed(front, |front|, button, lostToo)
  {
    assert forall i :: 0 <= i < |front| ==> front[i] == ps[i];
  }

  /** The last poll about a button, if there is any. */
  lemma {:induction false} LastAbout(ps: seq<Poll>, n: nat, button: nat) returns (j: int)
    requires n <= |ps|
    ensures -1 <= j < n && (j >= 0 ==> IsAbout(ps[j], button, true))
    ensures forall k :: j < k < n ==> !IsAbout(ps[k], button, true)
    decreases n
  {
    if n == 0 { j := -1; }
    else if IsAbout(ps[n - 1], button, true) { j := n - 1; }
    else { j := LastAbout(ps, n - 1, button); }
  }

  lemma NothingAfter(ps: seq<Poll>, j: nat, k: nat, button: nat)
    requires j < |ps| && k < |ps| && MistoldAbout(ps, j, button) && IsAbout(ps[k], button, true)
    ensures k <= j && IsAbout(ps[j], button, true)
  {
    hide LastPressed;
  }

  /** About one button the two sides agree, unless the last event about it is mistold. */
  lemma ButtonAgrees(ps: seq<Poll>, button: nat)
    ensures LastPressed(ps, |ps|, button, false) != LastPressed(ps, |ps|, button, true) <==>
            exists j :: 0 <= j < |ps| && MistoldAbout(ps, j, button)
  {
    var last := LastAbout(ps, |ps|, button);
    if last < 0 {
      LastPressedBefore(ps, 0, |ps|, button, false);
      LastPressedBefore(ps, 0, |ps|, button, true);
    } else {
      assert LastPressed(ps, |ps|, button, true) <==> ps[last].event.down;
      if ps[last].lost {
        LastPressedBefore(ps, last, |ps|, button, false);
        assert MistoldAbout(ps, last, button) <==>
                 LastPressed(ps, |ps|, button, false) != LastPressed(ps, |ps|, button, true);
      } else {
        assert LastPressed(ps, |ps|, button, false) <==> ps[last].event.down;
      }
      forall j | 0 <= j < |ps| && MistoldAbout(ps, j, button) ensures j == last {
        NothingAfter(ps, j, last, button);
      }
    }
  }

  lemma {:induction false} HeldButtons(es: seq<ViewerEvent>)
    requires Ordinary(es)
    ensures forall b :: b in SdlHeld(es) ==> 1 <= b <= 5
    decreases |es|
  {
    if es != [] { HeldButtons(es[..|es| - 1]); }
  }

  lemma ImageInjective(a: set<nat>, b: set<nat>)
    requires (forall x :: x in a ==> 1 <= x <= 5) && (forall x :: x in b ==> 1 <= x <= 5)
    ensures Image(a) == Image(b) <==> a == b
  {
    if Image(a) == Image(b) {
      forall x | x in a ensures x in b { InImage(a, b, x); }
      forall x | x in b ensures x in a { InImage(b, a, x); }
    }
  }

  lemma InImage(a: set<nat>, b: set<nat>, x: nat)
    requires (forall x :: x in a ==> 1 <= x <= 5) && (forall x :: x in b ==> 1 <= x <= 5)
    requires x in a && Image(a) == Image(b)
    ensures x in b
  {
    assert XButton(x) in Image(b);
    var y :| y in b && XButton(y) == XButton(x);
  }

  lemma {:induction false} ToldAreSeen(ps: seq<Poll>)
    requires Ordinary(Seen(ps))
    ensures Ordinary(Told(ps))
    decreases |ps|
  {
    if ps != [] {
      var front := ps[..|ps| - 1];
      assert Seen(ps) == Seen(front) + [ps[|ps| - 1].event];
      assert forall e :: e in Seen(front) ==> e in Seen(ps);
      assert ps[|ps| - 1].event in Seen(ps);
      ToldAreSeen(front);
    }
  }

  /** Over any number of calls of the event loop, with any frames in between: when everything told has been
      replayed, the buttons held down on the streamer's side are those held down on the viewer's exactly
      if no event is mistold. */
  lemma HeldAfterPolling(v: View, ps: seq<Poll>, display: Display)
    requires Sized(v) && Ordinary(Seen(ps))
    ensures Ordinary(Told(ps))
    ensures var replayed := Replayed(MessagesOf(InputsOf(v, Told(ps))), display);
            && replayed.Some?
            && (Held(replayed.value) == Image(SdlHeld(Seen(ps))) <==> forall j :: 0 <= j < |ps| ==> !Mistold(ps, j))
  {
    hide Mistold, MistoldAbout, LastPressed, Events, Held, Replayed, InputsOf, MessagesOf, Image, SdlHeld;
    ToldAreSeen(ps);
    InputReplay(v, Told(ps), display);
    HeldButtons(Told(ps));
    HeldButtons(Seen(ps));
    ImageInjective(SdlHeld(Told(ps)), SdlHeld(Seen(ps)));
    forall button: nat
      ensures (button in SdlHeld(Told(ps))) != (button in SdlHeld(Seen(ps))) <==>
              exists j :: 0 <= j < |ps| && MistoldAbout(ps, j, button)
    {
      HeldIsLastPressed(ps, button, false);
      HeldIsLastPressed(ps, button, true);
      ButtonAgrees(ps, button);
    }
    Differing(ps, SdlHeld(Told(ps)), SdlHeld(Seen(ps)));
  }

  lemma Differing(ps: seq<Poll>, told: set<nat>, seen: set<nat>)
    requires forall button: nat :: (button in told) != (button in seen) <==>
               exists j :: 0 <= j < |ps| && MistoldAbout(ps, j, button)
    ensures told == seen <==> forall j :: 0 <= j < |ps| ==> !Mistold(ps, j)
  {
    forall j | 0 <= j < |ps| && Mistold(ps, j) ensures told != seen {
      var button := ps[j].event.button;
      assert MistoldAbout(ps, j, button);
      assert (button in told) != (button in seen);
    }
    if told != seen {
      var button :| (button in told) != (button in seen);
      var j :| 0 <= j < |ps| && MistoldAbout(ps, j, button);
    }
  }

  /** One call, after any history in which the two sides agreed: they still agree exactly if the queue was
      short enough, or the event polled too late is no button event, or repeats what already holds. */
  lemma HeldAfterCall(ps: seq<Poll>, queue: seq<ViewerEvent>, budget: nat)
    requires Ordinary(Seen(ps)) && Ordinary(queue) && SdlHeld(Told(ps)) == SdlHeld(Seen(ps))
    ensures var next := ps + CallPolls(queue, budget);
            SdlHeld(Told(next)) == SdlHeld(Seen(next)) <==>
              || |queue| <= budget || !queue[budget].MouseButton?
              || queue[budget].down == (queue[budget].button in SdlHeld(Seen(ps) + queue[..budget]))
  {
    hide Events, CallPolls;
    CallEvents(ps, queue, budget);
    var n := Min(budget, |queue|);
    SameHeld(Told(ps), Seen(ps), queue[..n]);
    if |queue| > budget {
      var polled := Seen(ps) + queue[..budget + 1];
      assert polled[..|polled| - 1] == Seen(ps) + queue[..budget] && polled[|polled| - 1] == queue[budget];
    }
  }

  lemma WithoutLast(a: seq<ViewerEvent>, es: seq<ViewerEvent>)
    requires es != []
    ensures a + es != [] && (a + es)[|a + es| - 1] == es[|es| - 1] && (a + es)[..|a + es| - 1] == a + es[..|es| - 1]
  {
  }

  lemma {:induction false} SameHeld(a: seq<ViewerEvent>, b: seq<ViewerEvent>, es: seq<ViewerEvent>)
    requires SdlHeld(a) == SdlHeld(b)
    ensures SdlHeld(a + es) == SdlHeld(b + es)
    decreases |es|
  {
    if es == [] {
      assert a + es == a && b + es == b;
    } else {
      var front := es[..|es| - 1];
      SameHeld(a, b, front);
      WithoutLast(a, es);
      WithoutLast(b, es);
    }
  }

  /** A release polled too late leaves the button held on the other side; and the two sides agree again
      when, after a press polled too late, the release is handled. */
  lemma StuckButton()
    ensures var press, release := MouseButton(true, 1, 0, 0), MouseButton(false, 1, 0, 0);
            && SdlHeld(Told(CallPolls([press, release], 1))) == {1}
               && SdlHeld(Seen(CallPolls([press, release], 1))) == {}
            && SdlHeld(Told(CallPolls([press], 0) + CallPolls([release], 1))) == {}
            && SdlHeld(Seen(CallPolls([press], 0) + CallPolls([release], 1))) == {}
  {
    hide Events, CallPolls;
    var press, release := MouseButton(true, 1, 0, 0), MouseButton(false, 1, 0, 0);
    CallEvents([], [press, release], 1);
    assert [] + CallPolls([press, release], 1) == CallPolls([press, release], 1);
    CallEvents([], [press], 0);
    assert [] + CallPolls([press], 0) == CallPolls([press], 0);
    CallEvents(CallPolls([press], 0), [release], 1);
    NothingYet();
    HeldBy([press]);
    HeldBy([press, release]);
    HeldBy([release]);
    assert [press, release][..1] == [press] && [release][..1] == [release] && [press][..1] == [press];
  }

  lemma NothingYet()
    ensures Told([]) == [] && Seen([]) == []
  {
  }

  lemma HeldBy(es: seq<ViewerEvent>)
    requires es != []
    ensures SdlHeld(es) == SdlPressed(SdlHeld(es[..|es| - 1]), es[|es| - 1]) && SdlHeld(es[..0]) == {}
  {
  }
}
