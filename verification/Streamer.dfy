/** The streamer's two chains: input messages from the socket through a queue into the input
    controller, and screenshots one at a time (src/streamer/ScreenViewerStreamer.cpp). */
module Streamer {
  import opened Messages
  import opened Framing
  import opened Sockets
  import opened Input
  import opened Viewer

  /** What the encoder makes of the k-th screenshot: a packet, or nothing. */
  type VideoEncoder = nat -> Option<seq<byte>>

  function Shot(packet: seq<byte>): Message {
    Message(SCREEN_UPDATE, packet)
  }

  /** The messages for the first `n` screenshots, up to the first that gave no packet. */
  function Shots(encoder: VideoEncoder, n: nat): seq<Message> {
    if n == 0 then []
    else
      var earlier := Shots(encoder, n - 1);
      if |earlier| == n - 1 && encoder(n - 1).Some? then earlier + [Shot(encoder(n - 1).value)] else earlier
  }

  ghost predicate NoneMissing(encoder: VideoEncoder, n: nat) {
    forall i :: 0 <= i < n ==> encoder(i).Some?
  }

  class ScreenViewerStreamer {
    const socket: SocketBase
    const controller: X11IOController
    const encoder: VideoEncoder
    var messages: seq<Message>  // the concurrent queue
    var readsOut: nat            // outstanding reads of input messages
    var captures: nat            // screenshots taken so far
    var writes: seq<Message>     // screenshots whose asynchronous writes are outstanding

    ghost const input: seq<byte>       // everything the viewer sends
    ghost var received: seq<Message>   // every message the read callback was given
    ghost var handled: seq<Message>    // every message taken out of the queue and injected
    ghost var reading: bool            // the chain of reads was started
    ghost var readFailed: bool         // a read completed with an error
    ghost var rejected: bool           // a header was refused, and the viewer told so
    ghost const before: seq<byte>      // what had been written to the socket before
    ghost var shots: seq<Message>      // every screenshot that was written
    ghost var torn: seq<Message>       // the screenshot whose write failed, if one did

    ghost predicate Valid()
      reads this, socket, socket.stream, controller
    {
      Queued() && Reading() && Writing()
    }

    /** Received equals handled followed by queued, and the controller has injected exactly what was
        handled. */
    ghost predicate Queued()
      reads this`received, this`handled, this`messages, controller
    {
      && received == handled + messages && AllFit(received)
      && Replayed(handled, controller.display) == Some(controller.injected)
    }

    /** One read is outstanding from the start of the chain until one fails or a header is refused; while it
        is, what was received is what the input says, up to the frame boundary where that read began. */
    ghost predicate Reading()
      reads this`received, this`readsOut, this`reading, this`readFailed, this`rejected, socket
      reads socket.stream`open, socket.stream`inbound
    {
      && socket.Valid() && (!rejected ==> socket.stream.open)
      && readsOut == (if reading && !readFailed && !rejected then 1 else 0)
      && EncodeAll(received) <= input
      && (readsOut == 0 ==> socket.pending.NoRead?)
      && (readsOut == 1 ==> !socket.pending.NoRead? && socket.pending.limit == BUFFER_SIZE
                            && input == EncodeAll(received) + socket.Unconsumed())
    }

    ghost predicate Writing()
      reads this`captures, this`writes, this`shots, this`torn, this`rejected, socket`stream, socket.stream`outbound
    {
      Accounted() && OnTheWire()
    }

    /** The screenshots written, torn and being written are those of the captures before the first without a
        packet, and nothing is captured after that one. A write is outstanding exactly if something was
        captured, always with a packet, and no write failed. */
    ghost predicate Accounted()
      reads this`captures, this`writes, this`shots, this`torn
    {
      && shots + torn + writes == Shots(encoder, captures)
      && (captures > 0 ==> NoneMissing(encoder, captures - 1))
      && |writes| <= 1 && |torn| <= 1
      && (writes != [] <==> captures > 0 && NoneMissing(encoder, captures) && torn == [])
    }

    /** Whole screenshots are on the wire, one after the other, until a write fails (or a farewell comes in
        between). */
    ghost predicate OnTheWire()
      reads this`shots, this`torn, this`rejected, socket`stream, socket.stream`outbound
    {
      !rejected ==> before + EncodeAll(shots) <= socket.stream.outbound <= before + EncodeAll(shots + torn)
    }

    constructor (socket: SocketBase, controller: X11IOController, encoder: VideoEncoder)
      requires socket.Valid() && socket.stream.open && socket.pending.NoRead? && controller.injected == []
      ensures Valid() && this.socket == socket && this.controller == controller && this.encoder == encoder
      ensures input == socket.stream.inbound && before == socket.stream.outbound
      ensures received == [] && !reading && !readFailed && !rejected && captures == 0
    {
      this.socket, this.controller, this.encoder := socket, controller, encoder;
      messages, readsOut, captures, writes := [], 0, 0, [];
      input, received, handled := socket.stream.inbound, [], [];
      reading, readFailed, rejected := false, false, false;
      before, shots, torn := socket.stream.outbound, [], [];
    }

    /** The first `rounds` rounds of `run`, up to the end of the last one's draining: both chains are started,
        and then the queue is drained again and again while the other thread completes reads and writes at
        any time. */
    method Run(rounds: nat) returns (threw: bool)
      requires Valid() && input == socket.stream.inbound && received == [] && captures == 0
      requires !reading && !readFailed && !rejected
      modifies this`messages, this`readsOut, this`captures, this`writes, controller
      modifies this`received, this`handled, this`reading, this`readFailed, this`rejected, this`shots, this`torn
      modifies socket`pending, socket.stream, socket.dataBuffer
      ensures reading && Reading() && (readsOut == 1 <==> !readFailed && !rejected)
      ensures WellFormed(input) ==> !rejected
      ensures captures > 0 && Writing()
      ensures encoder(0).None? ==> shots == [] && writes == [] && (!rejected ==> socket.stream.outbound == before)
      ensures !threw ==> Queued() && (if rounds > 0 then messages == [] && handled == received else handled == [])
      ensures threw ==> |handled| < |received| && DecodeInput(received[|handled|]) == None
                        && received[|handled| + 1..] == messages
    {
      hide Replayed, DecodeInput, WellFormed, EncodeAll, AllFit, Shots, NoneMissing;
      NothingRead(input);
      ScheduleAsyncPollIOEvents();
      FirstShot(encoder);
      ScheduleAsyncSendScreenshots();
      threw := false;
      for i := 0 to rounds
        invariant Valid() && reading && captures > 0 && !threw && (WellFormed(input) ==> !rejected)
        invariant if i > 0 then messages == [] else handled == []
      {
        OtherThread();
        threw := HandleIOEvents();
        if threw { break; }
      }
      NoShot(encoder, captures);
      assert encoder(0).None? ==> shots == [] && torn == [] && writes == [];
      EncodeNothing(before);
    }

    method ScheduleAsyncPollIOEvents()
      requires socket.Valid() && socket.pending.NoRead?
      modifies this`readsOut, this`reading, socket`pending
      ensures socket.Valid() && socket.pending == AwaitHeader(BUFFER_SIZE) && readsOut == old(readsOut) + 1 && reading
    {
      var ok := socket.AsyncReadMessage(BUFFER_SIZE);
      readsOut, reading := readsOut + 1, true;
    }

    /** The other thread's turn at the socket: the outstanding read makes what progress it can. A
        delivered message is copied into the queue, and a new read is armed; later reads overwrite
        the buffer it came from, not the copy. A malformed header is the end of the chain. */
    method ReadCompletes(what: seq<byte>) returns (e: ReadEvent)
      requires Valid() && readsOut == 1
      modifies this`messages, this`readsOut, this`received, this`reading, this`rejected
      modifies socket`pending, socket.stream, socket.dataBuffer
      ensures Valid() && reading
      ensures (rejected <==> e.Rejected?) && (WellFormed(input) ==> !e.Rejected?)
      ensures e.Rejected? <==> ReadFrame(old(socket.Unconsumed()), BUFFER_SIZE).Malformed?
      ensures e.Rejected? ==>
                && socket.stream.Down()
                && (!socket.stream.open ==>
                      socket.stream.outbound == old(socket.stream.outbound)
                          + EncodeAll(Chunks(Message(DISCONNECT, what))))
      ensures ReadFrame(old(socket.Unconsumed()), BUFFER_SIZE).Complete? ==> e.HeaderAccepted? || e.Delivered?
      ensures if e.Delivered? then exists m :: messages == old(messages) + [m] && received == old(received) + [m]
              else messages == old(messages) && received == old(received)
      ensures if e.Waiting? then Work() == old(Work()) else Work() < old(Work())
    {
      hide Replayed, EncodeAll, ReadFrame, AllFit, HeaderBytes, Accounted, WellFormed;
      ghost var unread := socket.Unconsumed();
      if WellFormed(input) { NeverMalformed(input, received, unread); }
      e := socket.ReadCompletes(what);
      match e
      case Delivered(borrowed) =>
        var m := Message(borrowed.kind, socket.dataBuffer[..borrowed.size]);
        assert m == socket.Content(borrowed);
        TookFrame(input, received, unread, m);
        Enqueue(m);
      case Rejected(_) =>
        NoLonger(input, received, unread);
        readsOut, rejected := readsOut - 1, true;
      case _ =>
    }

    // the read's callback
    method Enqueue(m: Message)
      requires Queued() && reading && readsOut == 1 && !readFailed && !rejected
      requires socket.Valid() && socket.stream.open && socket.pending.NoRead?
      requires AllFit(received + [m]) && input == EncodeAll(received + [m]) + socket.stream.inbound
      modifies this`messages, this`readsOut, this`received, this`reading, socket`pending
      ensures Queued() && Reading() && readsOut == 1 && reading && socket.pending.AwaitHeader?
      ensures messages == old(messages) + [m] && received == old(received) + [m]
    {
      hide Replayed, EncodeAll, AllFit;
      readsOut := readsOut - 1;
      messages := messages + [m];
      received := received + [m];
      NoLonger(input, received, socket.stream.inbound);
      ScheduleAsyncPollIOEvents();
      assert socket.Unconsumed() == socket.stream.inbound;
    }

    /** A read that fails is the last one. */
    method ReadFails()
      requires Valid() && readsOut == 1
      modifies this`readsOut, this`readFailed, socket`pending
      ensures Valid() && readFailed && readsOut == 0 && Work() <= old(Work())
    {
      socket.ReadFails();
      readsOut, readFailed := readsOut - 1, true;
    }

    // what is left to do before both threads have to wait for the viewer
    ghost function Work(): nat
      reads this, socket, socket.stream
    {
      |socket.stream.inbound| + |messages| + if socket.pending.AwaitBody? then 2 else 0
    }

    /** Drains the queue while the other thread may run between any two of its steps. When it
        returns without an error everything received by then has been handled, in order and once; an error
        is that of the first message that cannot be decoded. */
    method HandleIOEvents() returns (threw: bool)
      requires Valid() && captures > 0 && reading
      modifies this`messages, this`readsOut, this`captures, this`writes, controller
      modifies this`received, this`handled, this`reading, this`readFailed, this`rejected, this`shots, this`torn
      modifies socket`pending, socket.stream, socket.dataBuffer
      ensures Reading() && Writing() && reading && captures > 0
      ensures WellFormed(input) && !old(rejected) ==> !rejected
      ensures old(writes) == [] ==> writes == [] && shots == old(shots) && captures == old(captures)
      ensures !threw ==> Queued() && messages == [] && handled == received
      ensures old(handled) <= handled && old(received) <= received
      ensures threw ==> |handled| < |received| && DecodeInput(received[|handled|]) == None
                        && received[|handled| + 1..] == messages
    {
      hide Replayed, DecodeInput, EncodeAll, AllFit, Injection, WellFormed, ReadFrame, Writing, Reading;
      threw := false;
      while messages != []
        invariant Valid() && reading && captures > 0 && (WellFormed(input) && !old(rejected) ==> !rejected)
        invariant old(writes) == [] ==> writes == [] && shots == old(shots) && captures == old(captures)
        invariant old(handled) <= handled && old(received) <= received
        decreases Work()
      {
        var message := messages[0];  // try_pop
        messages := messages[1..];
        assert received[|handled|] == message;
        threw := HandleInput(message);
        if threw { return; }
        Requeue(received, handled, message, messages);
        HandledOne(handled, message, controller.display);
        handled := handled + [message];
        OtherThread();
      }
    }

    /** Any number of turns of the other thread: completions of the read and of the write, with an error or
        without. Once no write is outstanding there never is one again. */
    method OtherThread()
      requires Valid() && captures > 0 && reading
      modifies this`messages, this`readsOut, this`captures, this`writes
      modifies this`received, this`reading, this`readFailed, this`rejected, this`shots, this`torn
      modifies socket`pending, socket.stream, socket.dataBuffer
      ensures Valid() && handled == old(handled) && captures > 0 && reading
      ensures WellFormed(input) && !old(rejected) ==> !rejected
      ensures old(writes) == [] ==> writes == [] && shots == old(shots) && captures == old(captures)
      ensures old(received) <= received && Work() <= old(Work())
    {
      hide WellFormed, Queued, Reading, Writing;
      var turns: int :| 0 <= turns;
      while turns > 0
        invariant Valid() && handled == old(handled) && captures > 0 && reading
        invariant WellFormed(input) && !old(rejected) ==> !rejected
        invariant old(writes) == [] ==> writes == [] && shots == old(shots) && captures == old(captures)
        invariant old(received) <= received && Work() <= old(Work())
      {
        var whose: int := *;
        if whose == 0 && readsOut == 1 {
          var e := ReadCompletes([]);
        } else if whose == 1 && readsOut == 1 {
          ReadFails();
        } else if writes != [] {
          WriteCompletes();
        }
        turns := turns - 1;
      }
    }

    method HandleInput(message: Message) returns (threw: bool)
      modifies controller
      ensures threw <==> DecodeInput(message) == None
      ensures threw ==> controller.injected == old(controller.injected)
      ensures !threw ==> controller.injected == old(controller.injected)
                                                + Injection(DecodeInput(message).value, controller.display)
    {
      match DecodeInput(message)
      case None => threw := true;
      case Some(Mouse(d)) =>
        controller.HandleMouseEvent(d);
        threw := false;
      case Some(Keyboard(d)) =>
        controller.HandleKeyboardEvent(d);
        threw := false;
      case Some(Ignored) =>
        threw := false;
    }

    // -------------------------------------------------------------- screenshots

    /** Takes a screenshot and, if the encoder has a packet for it, starts to write it. Every screenshot
        before has had a packet and was written. */
    method ScheduleAsyncSendScreenshots()
      requires writes == [] && torn == [] && NoneMissing(encoder, captures) && shots == Shots(encoder, captures)
      requires !rejected ==> socket.stream.outbound == before + EncodeAll(shots)
      modifies this`captures, this`writes
      ensures Writing() && captures == old(captures) + 1
      ensures writes == if encoder(old(captures)).Some? then [Shot(encoder(old(captures)).value)] else []
    {
      hide EncodeAll, Shots;
      NextShot(encoder, captures);
      assert shots + [] + [] == shots && shots + [] == shots;
      var packet := encoder(captures);
      captures := captures + 1;
      if packet.Some? {
        writes := writes + [Shot(packet.value)];
      }
    }

    /** The outstanding write has put its frame on the wire, and the next screenshot is taken; or it has
        failed, which ends the chain. */
    method WriteCompletes()
      requires Valid() && writes != []
      modifies this`captures, this`writes, this`shots, this`torn, socket.stream`outbound, socket.stream`broken
      ensures Valid()
      ensures if torn == [] then shots == old(shots + writes) && captures == old(captures) + 1
              else shots == old(shots) && torn == old(writes) && writes == [] && captures == old(captures)
                   && (!socket.stream.open || socket.stream.broken)
    {
      hide EncodeAll, EncodeFrame, Shots, NoneMissing, Queued, Reading;
      var m := writes[0];
      assert writes == [m] && shots + [] == shots && shots + [] + [m] == shots + [m] && shots + [m] + [] == shots + [m];
      EncodeAppend(shots, m);
      var ok := socket.SendChunk(m);
      Extends(before, EncodeAll(shots), EncodeFrame(m));
      writes := [];
      if ok {
        shots := shots + [m];
        assert shots + [] == shots && shots + [] + [] == shots;
        ScheduleAsyncSendScreenshots();
      } else {
        torn := [m];
      }
    }
  }

  lemma NothingRead(input: seq<byte>)
    ensures input == EncodeAll([]) + input
  {
  }

  lemma NoLonger(input: seq<byte>, received: seq<Message>, unread: seq<byte>)
    requires input == EncodeAll(received) + unread
    ensures EncodeAll(received) <= input
  {
  }

  lemma EncodeNothing(before: seq<byte>)
    ensures before + EncodeAll([]) == before && before + EncodeAll([] + []) == before
  {
  }

  lemma FirstShot(encoder: VideoEncoder)
    ensures Shots(encoder, 0) == [] && NoneMissing(encoder, 0)
  {
  }

  lemma {:induction false} ShotsCounted(encoder: VideoEncoder, n: nat)
    ensures |Shots(encoder, n)| <= n && (|Shots(encoder, n)| == n <==> NoneMissing(encoder, n))
  {
    if n > 0 {
      ShotsCounted(encoder, n - 1);
      assert NoneMissing(encoder, n) <==> NoneMissing(encoder, n - 1) && encoder(n - 1).Some?;
    }
  }

  lemma NextShot(encoder: VideoEncoder, n: nat)
    requires NoneMissing(encoder, n)
    ensures NoneMissing(encoder, n + 1) <==> encoder(n).Some?
    ensures Shots(encoder, n + 1) ==
            Shots(encoder, n) + if encoder(n).Some? then [Shot(encoder(n).value)] else []
  {
    ShotsCounted(encoder, n);
  }

  /** The chain of screenshots ends for good at the first one without a packet: however many are asked for,
      the messages are those of the packets before it. */
  lemma {:induction false} MissingPacketEnds(encoder: VideoEncoder, k: nat, n: nat)
    requires NoneMissing(encoder, k) && encoder(k).None?
    ensures |Shots(encoder, n)| == if n <= k then n else k
    ensures forall i :: 0 <= i < |Shots(encoder, n)| ==>
              encoder(i).Some? && Shots(encoder, n)[i] == Message(SCREEN_UPDATE, encoder(i).value)
  {
    if n > 0 { MissingPacketEnds(encoder, k, n - 1); }
  }

  lemma NoShot(encoder: VideoEncoder, n: nat)
    ensures encoder(0).None? ==> Shots(encoder, n) == []
  {
    if encoder(0).None? { MissingPacketEnds(encoder, 0, n); }
  }

  lemma Extends(a: seq<byte>, b: seq<byte>, c: seq<byte>)
    ensures a + b + c == a + (b + c)
  {
  }

  /** The viewer sends frames. */
  ghost predicate WellFormed(input: seq<byte>) {
    exists ms :: AllFit(ms) && input <= EncodeAll(ms)
  }

  lemma TookFrame(input: seq<byte>, done: seq<Message>, before: seq<byte>, m: Message)
    requires input == EncodeAll(done) + before && AllFit(done)
    requires exists n: nat :: ReadFrame(before, BUFFER_SIZE) == Complete(m, n)
    ensures |before| >= HEADER_SIZE + |m.content|
    ensures AllFit(done + [m]) && input == EncodeAll(done + [m]) + before[HEADER_SIZE + |m.content|..]
  {
    ReadFrameExact(before, BUFFER_SIZE, m);
    EncodeAppend(done, m);
    assert before == EncodeFrame(m) + before[|EncodeFrame(m)|..];
  }

  lemma Requeue(received: seq<Message>, handled: seq<Message>, m: Message, rest: seq<Message>)
    requires received == handled + ([m] + rest)
    ensures received == (handled + [m]) + rest
  {
  }

  lemma HandledOne(handled: seq<Message>, m: Message, display: Display)
    requires Replayed(handled, display).Some? && DecodeInput(m).Some?
    ensures Replayed(handled + [m], display) ==
            Some(Replayed(handled, display).value + Injection(DecodeInput(m).value, display))
  {
    assert (handled + [m])[..|handled|] == handled;
  }

  /** In the middle of a well-formed input no header is ever bad. */
  lemma NeverMalformed(input: seq<byte>, done: seq<Message>, rest: seq<byte>)
    requires WellFormed(input) && AllFit(done) && input == EncodeAll(done) + rest
    ensures !ReadFrame(rest, BUFFER_SIZE).Malformed?
  {
    var ms :| AllFit(ms) && input <= EncodeAll(ms);
    RestIsWellFormed(ms, done, rest);
  }

  lemma {:induction false} RestIsWellFormed(ms: seq<Message>, done: seq<Message>, rest: seq<byte>)
    requires AllFit(ms) && AllFit(done) && EncodeAll(done) + rest <= EncodeAll(ms)
    ensures !ReadFrame(rest, BUFFER_SIZE).Malformed?
    decreases |done|
  {
    var s := EncodeAll(done) + rest;
    if ms == [] {
      assert rest == [];
    } else {
      assert EncodeAll(ms) == EncodeFrame(ms[0]) + EncodeAll(ms[1..]);
      if done == [] {
        assert s == rest;
        PrefixOfFrames(ms[0], EncodeAll(ms[1..]), rest);
      } else {
        FirstFrame(done, rest, ms);
        RestIsWellFormed(ms[1..], done[1..], rest);
      }
    }
  }

  lemma PrefixOfFrames(m: Message, later: seq<byte>, s: seq<byte>)
    requires Fits(m, BUFFER_SIZE) && s <= EncodeFrame(m) + later
    ensures !ReadFrame(s, BUFFER_SIZE).Malformed?
  {
    if |s| < |EncodeFrame(m)| {
      ReadPartialFrame(m, s, BUFFER_SIZE);
    } else {
      assert s == EncodeFrame(m) + s[|EncodeFrame(m)|..];
      ReadEncodedFrame(m, s[|EncodeFrame(m)|..], BUFFER_SIZE);
    }
  }

  /** Two streams of frames, one a prefix of the other, start with the same frame. */
  lemma FirstFrame(done: seq<Message>, rest: seq<byte>, ms: seq<Message>)
    requires done != [] && ms != [] && AllFit(done) && AllFit(ms) && EncodeAll(done) + rest <= EncodeAll(ms)
    ensures done[0] == ms[0] && EncodeAll(done[1..]) + rest <= EncodeAll(ms[1..])
  {
    var s := EncodeAll(done) + rest;
    EncodeThen(done, rest, EncodeAll(done[1..]) + rest);
    ReadEncodedFrame(done[0], EncodeAll(done[1..]) + rest, BUFFER_SIZE);
    ReadEncodedFrame(ms[0], EncodeAll(ms[1..]), BUFFER_SIZE);
    ReadFrameExact(s, BUFFER_SIZE, done[0]);
    ReadFrameExact(EncodeAll(ms), BUFFER_SIZE, done[0]);
    assert EncodeFrame(done[0]) <= s <= EncodeAll(ms);
  }

  // ---------------------------------------------------------------- from the viewer's hands to the X server

  lemma {:induction false} SentBeforeEvent(v: View, es: seq<ViewerEvent>, n: nat) returns (k: nat)
    requires Sized(v) && Ordinary(es) && n <= |InputsOf(v, es)|
    ensures k <= |es| && Ordinary(es[..k]) && InputsOf(v, es[..k]) == InputsOf(v, es)[..n]
    decreases |es|
  {
    var inputs := InputsOf(v, es);
    if n == |inputs| {
      k := |es|;
      assert es[..k] == es;
    } else {
      var front, e := es[..|es| - 1], es[|es| - 1];
      assert es == front + [e];
      InputsAppend(v, front, e);
      k := SentBeforeEvent(v, front, n);
      assert front[..k] == es[..k];
    }
  }

  lemma ReceivedIsPrefix(ms: seq<Message>, input: seq<byte>, received: seq<Message>, rest: seq<byte>)
    requires AllFit(ms) && AllFit(received) && input <= EncodeAll(ms) && input == EncodeAll(received) + rest
    ensures received <= ms
  {
    hide EncodeAll, AllFit, ReadAll;
    ReadEncoded(received, rest);
    ReadPrefix(input, EncodeAll(ms));
    ReadEncoded(ms, []);
    ReadAllStop([]);
    assert EncodeAll(ms) + [] == EncodeAll(ms) && ms + [] == ms;
  }

  /** At every moment: if the viewer has been handling the events `es` and its bytes reach the streamer,
      then no message the streamer took out of its queue failed to decode, and the X buttons it holds
      down are the image of the SDL buttons held down after some first part of `es`. The conditions on
      `received` and `handled` are those that every method of the streamer keeps. */
  lemma InputPipeline(v: View, es: seq<ViewerEvent>, input: seq<byte>, received: seq<Message>, rest: seq<byte>,
                      handled: seq<Message>,
                      display: Display) returns (k: nat)
    requires Sized(v) && Ordinary(es) && input <= EncodeAll(MessagesOf(InputsOf(v, es)))
    requires AllFit(received) && input == EncodeAll(received) + rest && handled <= received
    ensures k <= |es| && Ordinary(es[..k]) && handled == MessagesOf(InputsOf(v, es[..k]))
    ensures Replayed(handled, display).Some? && Held(Replayed(handled, display).value) == Image(SdlHeld(es[..k]))
    ensures input == EncodeAll(MessagesOf(InputsOf(v, es))) && rest == [] && handled == received ==>
              handled == MessagesOf(InputsOf(v, es))
  {
    hide EncodeAll, Held, Image, SdlHeld, ReadAll;
    var ms := MessagesOf(InputsOf(v, es));
    InputsFit(InputsOf(v, es));
    ReceivedIsPrefix(ms, input, received, rest);
    k := SentBeforeEvent(v, es, |handled|);
    assert handled == ms[..|handled|] == MessagesOf(InputsOf(v, es)[..|handled|]);
    InputReplay(v, es[..k], display);
    if input == EncodeAll(ms) && rest == [] && handled == received {
      assert EncodeAll(received) + [] == EncodeAll(received);
      ReceivedIsPrefix(received, EncodeAll(ms), ms, []);
      assert EncodeAll(ms) + [] == EncodeAll(ms);
    }
  }

  lemma InputsFit(inputs: seq<Input>)
    ensures AllFit(MessagesOf(inputs))
  {
  }

  // ---------------------------------------------------------------- one frame per screenshot

  /** `asyncSendMessage` does not cut its message. Its frame is accepted on the other side exactly
      when the content is within 5 MiB, and otherwise refused as too long. */
  lemma UncutFrameAccepted(m: Message, tail: seq<byte>)
    requires |m.content| < Pow256(LENGTH_SIZE)
    ensures ReadFrame(EncodeFrame(m) + tail, BUFFER_SIZE) ==
            if Fits(m, BUFFER_SIZE) then Complete(m, |EncodeFrame(m)|) else Malformed(MessageTooLong)
  {
    if Fits(m, BUFFER_SIZE) {
      ReadEncodedFrame(m, tail, BUFFER_SIZE);
    } else {
      var s := EncodeFrame(m) + tail;
      BytesOfInteger(|m.content|, LENGTH_SIZE);
      assert s[..HEADER_SIZE][..LENGTH_SIZE] == ToBytes(|m.content|, LENGTH_SIZE);
    }
  }
}
