/** The client half of the protocol (src/ClientSocket.cpp). Each call is specified by the frames it
    puts on the wire and the frames it takes off it. */
module Clients {
  import opened Messages
  import opened Framing
  import opened Streams
  import opened Sockets

  /** The reader took exactly the frames `ms` off the input `before` and left `after`. */
  ghost predicate Took(before: seq<byte>, ms: seq<Message>, after: seq<byte>) {
    AllFit(ms) && before == EncodeAll(ms) + after
  }

  class ClientSocket {
    const base: SocketBase

    constructor (stream: TlsStream)
      ensures base.Valid() && base.stream == stream
    {
      base := new SocketBase(stream);
    }

    /** The connection is down, and what got through is some first part of the message's frames. */
    twostate predicate NotWritten(before: seq<byte>, m: Message)
      reads base, base.stream
    {
      base.stream.Down() && before <= base.stream.outbound <= before + EncodeAll(Chunks(m))
      && base.stream.inbound == old(base.stream.inbound)
    }

    /** `credentials` is the JSON text with the email and the password. */
    method Login(credentials: seq<byte>) returns (r: Result<(), SocketError>)
      requires base.Valid() && base.stream.open
      modifies base.stream`inbound, base.stream`outbound, base.stream`broken, base.dataBuffer
      ensures r.Ok? ==>
        && base.stream.outbound == old(base.stream.outbound) + EncodeAll(Chunks(Message(LOGIN, credentials)))
        && exists c :: Took(old(base.stream.inbound), [Message(ACK, c)], base.stream.inbound)
      ensures r == Err(WriteFailed) ==> NotWritten(old(base.stream.outbound), Message(LOGIN, credentials))
      ensures r.Err? && r.error != WriteFailed ==>
        && base.stream.outbound == old(base.stream.outbound) + EncodeAll(Chunks(Message(LOGIN, credentials)))
        && Explains(r.error, old(base.stream.inbound)) && (r.error.Unexpected? ==> r.error.message.kind != ACK)
    {
      var sent := base.Send(Message(LOGIN, credentials));
      if !sent { return Err(WriteFailed); }
      ghost var before := base.stream.inbound;
      r := base.ReceiveACK();
      if r.Ok? {
        ghost var c :| exists n: nat :: ReadFrame(before, BUFFER_SIZE) == Complete(Message(ACK, c), n);
        ConsumedOne(before, Message(ACK, c));
      }
    }

    /** True exactly when the server's answer is ACK; that frame and nothing more is consumed. */
    method FindOtherClient(id: seq<byte>) returns (r: Result<bool, SocketError>)
      requires base.Valid() && base.stream.open
      modifies base.stream`inbound, base.stream`outbound, base.stream`broken, base.dataBuffer
      ensures r.Ok? ==>
        && base.stream.outbound == old(base.stream.outbound) + EncodeAll(Chunks(Message(FIND_STREAMER, id)))
        && exists m: Message :: r.value == (m.kind == ACK) && Took(old(base.stream.inbound), [m], base.stream.inbound)
      ensures r == Err(WriteFailed) ==> NotWritten(old(base.stream.outbound), Message(FIND_STREAMER, id))
      ensures r.Err? && r.error != WriteFailed ==>
        && base.stream.outbound == old(base.stream.outbound) + EncodeAll(Chunks(Message(FIND_STREAMER, id)))
        && Explains(r.error, old(base.stream.inbound)) && !r.error.Unexpected?
    {
      var sent := base.Send(Message(FIND_STREAMER, id));
      if !sent { return Err(WriteFailed); }
      ghost var before := base.stream.inbound;
      var message := base.ReceiveToBuffer();
      if message.Err? { return Err(message.error); }
      ConsumedOne(before, base.Content(message.value));
      r := Ok(message.value.kind == ACK);
    }

    /** Registers and returns the identifier the server answers with. */
    method RequestStreamerID() returns (r: Result<seq<byte>, SocketError>)
      requires base.Valid() && base.stream.open
      modifies base.stream`inbound, base.stream`outbound, base.stream`broken
      ensures r.Ok? ==>
        && base.stream.outbound == old(base.stream.outbound) + EncodeAll(Chunks(Message(REGISTER_STREAMER, [])))
        && Took(old(base.stream.inbound), [Message(ID, r.value)], base.stream.inbound)
      ensures r == Err(WriteFailed) ==> NotWritten(old(base.stream.outbound), Message(REGISTER_STREAMER, []))
      ensures r.Err? && r.error != WriteFailed ==>
        && base.stream.outbound == old(base.stream.outbound) + EncodeAll(Chunks(Message(REGISTER_STREAMER, [])))
        && Explains(r.error, old(base.stream.inbound)) && (r.error.Unexpected? ==> r.error.message.kind != ID)
    {
      var sent := base.Send(Message(REGISTER_STREAMER, []));
      if !sent { return Err(WriteFailed); }
      ghost var before := base.stream.inbound;
      var response := base.Receive();
      if response.Err? { return Err(response.error); }
      ConsumedOne(before, response.value);
      r := if response.value.kind == ID then Ok(response.value.content) else Err(Unexpected(response.value));
    }

    /** Skips messages until START_STREAM arrives (true) or the time is up (false). What follows
        the frame it stopped at is left unread. */
    method WaitForStartStreamMessage(clock: Clock, timeout: int)
        returns (r: Result<bool, SocketError>, ghost skipped: seq<Message>)
      requires base.Valid() && base.stream.open
      modifies clock, base.stream`inbound, base.dataBuffer
      ensures forall m :: m in skipped ==> m.kind != START_STREAM
      ensures r == Ok(false) ==> Took(old(base.stream.inbound), skipped, base.stream.inbound)
      ensures r == Ok(true) ==>
        exists c :: Took(old(base.stream.inbound), skipped + [Message(START_STREAM, c)], base.stream.inbound)
      ensures r.Err? ==> AllFit(skipped) && EncodeAll(skipped) <= old(base.stream.inbound)
                         && Explains(r.error, old(base.stream.inbound)[|EncodeAll(skipped)|..])
                         && !r.error.Unexpected?
      ensures r == Ok(false) ==> clock.time - old(clock.time) >= timeout
      ensures old(clock.readings) <= clock.readings
      ensures TimeChecked(clock.readings[|old(clock.readings)|..], timeout, |skipped|, r == Ok(false))
    {
      skipped := [];
      ghost var before0 := clock.readings;
      var start := clock.Now();
      var now := clock.Now();
      assert clock.readings[|before0|..] == [start, now];
      while now - start < timeout
        invariant before0 <= clock.readings && |clock.readings| == |before0| + |skipped| + 2
        invariant clock.readings[|before0|] == start && clock.readings[|clock.readings| - 1] == now == clock.time
        invariant old(clock.time) <= start
        invariant forall k :: |before0| < k < |clock.readings| - 1 ==> clock.readings[k] - start < timeout
        invariant Took(old(base.stream.inbound), skipped, base.stream.inbound)
        invariant forall m :: m in skipped ==> m.kind != START_STREAM
        decreases |base.stream.inbound|
      {
        ghost var before := base.stream.inbound;
        var message := base.ReceiveToBuffer();
        if message.Err? {
          Behind(old(base.stream.inbound), EncodeAll(skipped), before);
          return Err(message.error), skipped;
        }
        ghost var m := base.Content(message.value);
        ConsumedOne(before, m);
        ConsumedNext(old(base.stream.inbound), skipped, before, m, base.stream.inbound);
        if message.value.kind == START_STREAM {
          assert m == Message(START_STREAM, m.content);
          return Ok(true), skipped;
        }
        skipped := skipped + [m];
        now := clock.Now();
      }
      r := Ok(false);
    }
  }

  /** The clock is read once to begin with, and again before every message: while it shows that there is time
      the next message is waited for, and as soon as it shows that the time is up that is the end. */
  ghost predicate TimeChecked(readings: seq<int>, timeout: int, skipped: nat, late: bool) {
    && |readings| == skipped + 2
    && forall k :: 1 <= k < |readings| ==> (readings[k] - readings[0] >= timeout <==> late && k == |readings| - 1)
  }

  lemma Behind(all: seq<byte>, done: seq<byte>, rest: seq<byte>)
    requires all == done + rest
    ensures done <= all && all[|done|..] == rest
  {
  }

  lemma ConsumedOne(before: seq<byte>, m: Message)
    requires exists n: nat :: ReadFrame(before, BUFFER_SIZE) == Complete(m, n)
    ensures |before| >= |EncodeFrame(m)| && Took(before, [m], before[|EncodeFrame(m)|..])
    ensures ReadFrame(before, BUFFER_SIZE) == Complete(m, |EncodeFrame(m)|)
  {
    ReadFrameExact(before, BUFFER_SIZE, m);
    EncodeOne(m);
  }

  lemma ConsumedNext(all: seq<byte>, done: seq<Message>, before: seq<byte>, m: Message, after: seq<byte>)
    requires Took(all, done, before) && Took(before, [m], after)
    ensures Took(all, done + [m], after)
  {
    EncodeAllConcat(done, [m]);
  }
}
