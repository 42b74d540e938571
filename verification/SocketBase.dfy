/** `SocketBase`: messages over a stream, with one receive buffer reused for every message
    (include/SocketBase.hpp, src/SocketBase.cpp). */
module Sockets {
  import opened Messages
  import opened Framing
  import opened Streams

  datatype SocketError = EndOfStream | BadHeader(error: HeaderError) | Unexpected(message: Message) | WriteFailed

  /** A message whose content is the first `size` bytes of the socket's buffer. */
  datatype BorrowedMessage = BorrowedMessage(kind: MessageType, size: nat)

  /** Whether the error is what the next read of this input comes to. */
  predicate Explains(e: SocketError, input: seq<byte>) {
    match e
    case EndOfStream => ReadFrame(input, BUFFER_SIZE) == Incomplete
    case BadHeader(error) => ReadFrame(input, BUFFER_SIZE) == Malformed(error)
    case Unexpected(m) => ReadFrame(input, BUFFER_SIZE).Complete? && ReadFrame(input, BUFFER_SIZE).message == m
    case WriteFailed => false
  }

  datatype PendingRead = NoRead | AwaitHeader(limit: nat) | AwaitBody(header: Header, limit: nat)

  datatype ReadEvent = Waiting | HeaderAccepted | Rejected(error: HeaderError) | Delivered(message: BorrowedMessage)

  class SocketBase {
    var stream: TlsStream
    const dataBuffer: array<byte>
    var pending: PendingRead  // the outstanding asynchronous read, if any

    constructor (stream: TlsStream)
      ensures Valid() && this.stream == stream && pending == NoRead && fresh(dataBuffer)
    {
      this.stream := stream;
      dataBuffer := new byte[BUFFER_SIZE];
      pending := NoRead;
    }

    ghost predicate Valid()
      reads this
    {
      && dataBuffer.Length == BUFFER_SIZE
      && (!pending.NoRead? ==> pending.limit <= BUFFER_SIZE)
      && (pending.AwaitBody? ==> pending.header.length <= pending.limit)
    }

    /** The input from the last frame boundary on: a header that was read but whose body was not
        still counts as part of it. */
    ghost function Unconsumed(): seq<byte>
      reads this, stream`inbound
    {
      (if pending.AwaitBody? then HeaderBytes(pending.header) else []) + stream.inbound
    }

    ghost function Content(m: BorrowedMessage): Message
      requires m.size <= dataBuffer.Length
      reads dataBuffer
    {
      Message(m.kind, dataBuffer[..m.size])
    }

    // the part of the buffer an outstanding read may still fill
    static function Reach(p: PendingRead): nat {
      if p.NoRead? then 0 else if p.limit < HEADER_SIZE then HEADER_SIZE else p.limit
    }

    // -------------------------------------------------------------- sending

    method SendChunk(m: Message) returns (ok: bool)
      modifies stream`outbound, stream`broken
      ensures ok ==> stream.open && !old(stream.broken) && !stream.broken
                     && stream.outbound == old(stream.outbound) + EncodeFrame(m)
      ensures !ok ==> (stream.open ==> stream.broken)
                      && old(stream.outbound) <= stream.outbound <= old(stream.outbound) + EncodeFrame(m)
      ensures !ok && (old(stream.broken) || !stream.open) ==> stream.outbound == old(stream.outbound)
    {
      ok := stream.Write(EncodeFrame(m));
    }

    /** Puts the frames of `m` on the wire, or a prefix of them when the connection breaks. */
    method Send(m: Message) returns (ok: bool)
      modifies stream`outbound, stream`broken
      ensures ok ==> stream.open && !old(stream.broken) && !stream.broken
                     && stream.outbound == old(stream.outbound) + EncodeAll(Chunks(m))
      ensures !ok ==> (stream.open ==> stream.broken)
                      && old(stream.outbound) <= stream.outbound <= old(stream.outbound) + EncodeAll(Chunks(m))
      ensures !ok && (old(stream.broken) || !stream.open) ==> stream.outbound == old(stream.outbound)
    {
      var messageLength, cursor := |m.content|, 0;
      ghost var goal := stream.outbound + EncodeAll(Chunks(m));
      ghost var todo := EncodeAll(Chunks(m));
      assert m.content[0..] == m.content;
      while messageLength > BUFFER_SIZE
        invariant 0 <= cursor && 0 <= messageLength && cursor + messageLength == |m.content|
        invariant todo == EncodeAll(Chunks(Message(m.kind, m.content[cursor..])))
        invariant old(stream.outbound) <= stream.outbound && stream.outbound + todo == goal
        invariant stream.broken == old(stream.broken)
        invariant cursor > 0 ==> stream.open && !stream.broken
        invariant cursor == 0 ==> stream.outbound == old(stream.outbound)
        decreases messageLength
      {
        var chunk := Message(m.kind, m.content[cursor..cursor + BUFFER_SIZE]);
        ghost var left := EncodeAll(Chunks(Message(m.kind, m.content[cursor + BUFFER_SIZE..])));
        FirstChunk(m, cursor);
        TowardsGoal(stream.outbound, EncodeFrame(chunk), left, goal);
        ok := SendChunk(chunk);
        if !ok { return; }
        todo := left;
        messageLength := messageLength - BUFFER_SIZE;
        cursor := cursor + BUFFER_SIZE;
      }
      var last := Message(m.kind, m.content[cursor..cursor + messageLength]);
      assert last.content == m.content[cursor..];
      SmallMessageIsOneFrame(last);
      ok := SendChunk(last);
    }

    /** Says why, if there is a reason to say, then closes. Fails when the farewell cannot be
        written or the socket is no longer connected; then nothing is closed. */
    method Disconnect(text: Option<seq<byte>>) returns (ok: bool)
      modifies stream`outbound, stream`broken, stream`open
      ensures ok ==> !stream.open && stream.outbound == old(stream.outbound) + Farewell(text)
      ensures !ok ==> stream.open == old(stream.open) && stream.Down()
                      && old(stream.outbound) <= stream.outbound <= old(stream.outbound) + Farewell(text)
      ensures old(stream.broken) || !old(stream.open) ==> stream.outbound == old(stream.outbound) || text.None?
    {
      if text.Some? {
        ok := Send(Message(DISCONNECT, text.value));
        if !ok { return; }
      }
      ok := stream.ShutdownAndClose();
    }

    static ghost function Farewell(text: Option<seq<byte>>): seq<byte> {
      if text.Some? then EncodeAll(Chunks(Message(DISCONNECT, text.value))) else []
    }

    // -------------------------------------------------------------- blocking reads

    method ReadHeader() returns (r: Result<Header, SocketError>)
      requires stream.open
      modifies stream`inbound
      ensures r == Err(EndOfStream) <==> |old(stream.inbound)| < HEADER_SIZE
      ensures forall h :: r == Ok(h) <==>
        |old(stream.inbound)| >= HEADER_SIZE && Deserialize(old(stream.inbound)[..HEADER_SIZE], BUFFER_SIZE) == Ok(h)
      ensures forall e :: r == Err(BadHeader(e)) <==>
        |old(stream.inbound)| >= HEADER_SIZE && Deserialize(old(stream.inbound)[..HEADER_SIZE], BUFFER_SIZE) == Err(e)
      ensures r.Ok? ==> stream.inbound == old(stream.inbound)[HEADER_SIZE..]
      ensures r.Err? ==> r.error.EndOfStream? || r.error.BadHeader?
    {
      var buf := new byte[HEADER_SIZE];
      var ok := stream.ReadExactly(buf, HEADER_SIZE);
      if !ok { return Err(EndOfStream); }
      assert buf[..] == old(stream.inbound)[..HEADER_SIZE];
      match Deserialize(buf[..], BUFFER_SIZE)
      case Ok(h) => r := Ok(h);
      case Err(e) => r := Err(BadHeader(e));
    }

    /** Delivers the next frame of the input and consumes exactly its bytes; the socket's own
        buffer is not touched. */
    method Receive() returns (r: Result<Message, SocketError>)
      requires stream.open
      modifies stream`inbound
      ensures r.Ok? ==>
                && ReadFrame(old(stream.inbound), BUFFER_SIZE) == Complete(r.value, HEADER_SIZE + |r.value.content|)
                && stream.inbound == old(stream.inbound)[HEADER_SIZE + |r.value.content|..]
      ensures r == Err(EndOfStream) <==> ReadFrame(old(stream.inbound), BUFFER_SIZE) == Incomplete
      ensures r.Err? && r.error.BadHeader? ==> ReadFrame(old(stream.inbound), BUFFER_SIZE) == Malformed(r.error.error)
      ensures r.Err? ==> r.error.EndOfStream? || r.error.BadHeader?
    {
      var header := ReadHeader();
      if header.Err? { return Err(header.error); }
      var message := new byte[header.value.length];
      var ok := stream.ReadExactly(message, header.value.length);
      if !ok { return Err(EndOfStream); }
      r := Ok(Message(header.value.kind, message[..]));
      assert message[..] == old(stream.inbound)[HEADER_SIZE..HEADER_SIZE + header.value.length];
    }

    /** The same frame, with its body left in the shared buffer. Bytes of the buffer beyond the
        body keep whatever an earlier, longer message put there. */
    method ReceiveToBuffer() returns (r: Result<BorrowedMessage, SocketError>)
      requires Valid() && stream.open
      modifies stream`inbound, dataBuffer
      ensures r.Ok? ==> r.value.size <= BUFFER_SIZE
                        && ReadFrame(old(stream.inbound), BUFFER_SIZE)
                           == Complete(Content(r.value), HEADER_SIZE + r.value.size)
                        && stream.inbound == old(stream.inbound)[HEADER_SIZE + r.value.size..]
                        && dataBuffer[r.value.size..] == old(dataBuffer[r.value.size..])
      ensures r == Err(EndOfStream) <==> ReadFrame(old(stream.inbound), BUFFER_SIZE) == Incomplete
      ensures r.Err? && r.error.BadHeader? ==> ReadFrame(old(stream.inbound), BUFFER_SIZE) == Malformed(r.error.error)
      ensures r.Err? ==> r.error.EndOfStream? || r.error.BadHeader?
    {
      var header := ReadHeader();
      if header.Err? { return Err(header.error); }
      var n := header.value.length;
      var ok := stream.ReadExactly(dataBuffer, n);
      if !ok { return Err(EndOfStream); }
      r := Ok(BorrowedMessage(header.value.kind, n));
      assert dataBuffer[..n] == old(stream.inbound)[HEADER_SIZE..HEADER_SIZE + n];
      assert dataBuffer[n..] == old(dataBuffer[n..]);
    }

    method ReceiveACK() returns (r: Result<(), SocketError>)
      requires Valid() && stream.open
      modifies stream`inbound, dataBuffer
      ensures r.Ok? <==> (exists c, n: nat ::
                ReadFrame(old(stream.inbound), BUFFER_SIZE) == Complete(Message(ACK, c), n))
      ensures r.Ok? || (r.Err? && r.error.Unexpected?) ==>
                && ReadFrame(old(stream.inbound), BUFFER_SIZE).Complete?
                && |old(stream.inbound)| >= ReadFrame(old(stream.inbound), BUFFER_SIZE).size
                && stream.inbound == old(stream.inbound)[ReadFrame(old(stream.inbound), BUFFER_SIZE).size..]
      ensures r.Err? ==> Explains(r.error, old(stream.inbound))
    {
      var message := ReceiveToBuffer();
      if message.Err? { return Err(message.error); }
      var received := Message(message.value.kind, dataBuffer[..message.value.size]);
      r := if message.value.kind == ACK then Ok(()) else Err(Unexpected(received));
    }

    // -------------------------------------------------------------- asynchronous reads

    /** Schedules the read of one message. The stream allows no second read while one is
        outstanding; a limit beyond the buffer is refused. */
    method AsyncReadMessage(limit: nat) returns (ok: bool)
      requires Valid() && pending.NoRead?
      modifies this`pending
      ensures Valid() && ok == (limit <= BUFFER_SIZE)
      ensures pending == if ok then AwaitHeader(limit) else NoRead
    {
      ok := limit <= BUFFER_SIZE;
      if ok { pending := AwaitHeader(limit); }
    }

    /** The outstanding read completes with an error: the chain of reads ends, and nothing is said. */
    method ReadFails()
      requires Valid() && !pending.NoRead?
      modifies this`pending
      ensures Valid() && pending.NoRead?
    {
      pending := NoRead;
    }

    /** One completion of the outstanding read, whatever bytes are there. It waits, accepts a
        header, delivers exactly the next frame, or gives up for good; `what` is the text of the
        exception in the last case. Every store into the buffer is within its bounds, because
        the bytes asked for never exceed the limit. */
    method ReadCompletes(what: seq<byte>) returns (e: ReadEvent)
      requires Valid() && !pending.NoRead? && stream.open
      modifies this`pending, stream, dataBuffer
      ensures Valid()
      ensures e.Waiting? ==> ReadFrame(old(Unconsumed()), old(pending.limit)) == Incomplete
                             && unchanged(this, stream, dataBuffer)
      ensures e.HeaderAccepted? ==> old(pending.AwaitHeader?) && pending.AwaitBody?
                                    && pending.limit == old(pending.limit)
                                    && Unconsumed() == old(Unconsumed())
      ensures e.Rejected? ==> ReadFrame(old(Unconsumed()), old(pending.limit)) == Malformed(e.error) && pending.NoRead?
                              && |old(stream.inbound)| >= HEADER_SIZE
                                 && stream.inbound == old(stream.inbound)[HEADER_SIZE..]
      ensures e.Delivered? ==> e.message.size <= old(pending.limit) && pending.NoRead?
                               && ReadFrame(old(Unconsumed()), old(pending.limit))
                                  == Complete(Content(e.message), HEADER_SIZE + e.message.size)
                               && stream.inbound == old(Unconsumed())[HEADER_SIZE + e.message.size..]
      ensures ReadFrame(old(Unconsumed()), old(pending.limit)).Complete? ==> e.HeaderAccepted? || e.Delivered?
      ensures ReadFrame(old(Unconsumed()), old(pending.limit)).Malformed? ==> e.Rejected?
      ensures !e.Rejected? ==> stream.outbound == old(stream.outbound) && stream.open
                               && stream.broken == old(stream.broken)
      ensures e.Rejected? ==>
                var farewell := EncodeAll(Chunks(Message(DISCONNECT, what)));
                && stream.Down()
                && old(stream.outbound) <= stream.outbound <= old(stream.outbound) + farewell
                && (!stream.open ==> stream.outbound == old(stream.outbound) + farewell)
      ensures forall i :: old(Reach(pending)) <= i < BUFFER_SIZE ==> dataBuffer[i] == old(dataBuffer[i])
    {
      ghost var before := Unconsumed();
      match pending
      case AwaitHeader(limit) =>
        assert before == stream.inbound;
        if |stream.inbound| < HEADER_SIZE { return Waiting; }
        var ok := stream.ReadExactly(dataBuffer, HEADER_SIZE);
        assert dataBuffer[..HEADER_SIZE] == before[..HEADER_SIZE];
        DeserializeExact(dataBuffer[..HEADER_SIZE], limit);
        match Deserialize(dataBuffer[..HEADER_SIZE], limit) {
          case Ok(h) =>
            assert before[..HEADER_SIZE][..HEADER_SIZE] == before[..HEADER_SIZE];
            pending, e := AwaitBody(h, limit), HeaderAccepted;
          case Err(error) =>
            pending, e := NoRead, Rejected(error);
            var closed := Disconnect(Some(what));  // safeDisconnect: a failure here is only logged
        }
      case AwaitBody(h, limit) =>
        ResumedFrame(h, limit, stream.inbound);
        if |stream.inbound| < h.length { return Waiting; }
        var ok := stream.ReadExactly(dataBuffer, h.length);
        assert dataBuffer[..h.length] == old(stream.inbound)[..h.length];
        assert before[HEADER_SIZE + h.length..] == stream.inbound;
        pending, e := NoRead, Delivered(BorrowedMessage(h.kind, h.length));
    }
  }

  lemma FirstChunk(m: Message, cursor: nat)
    requires cursor + BUFFER_SIZE < |m.content|
    ensures EncodeAll(Chunks(Message(m.kind, m.content[cursor..]))) ==
            EncodeFrame(Message(m.kind, m.content[cursor..cursor + BUFFER_SIZE]))
            + EncodeAll(Chunks(Message(m.kind, m.content[cursor + BUFFER_SIZE..])))
  {
    var rest := m.content[cursor..];
    assert rest[..BUFFER_SIZE] == m.content[cursor..cursor + BUFFER_SIZE];
    assert rest[BUFFER_SIZE..] == m.content[cursor + BUFFER_SIZE..];
    var chunk := Message(m.kind, rest[..BUFFER_SIZE]);
    EncodeAllConcat([chunk], Chunks(Message(m.kind, rest[BUFFER_SIZE..])));
    EncodeOne(chunk);
  }

  lemma TowardsGoal(sent: seq<byte>, next: seq<byte>, left: seq<byte>, goal: seq<byte>)
    requires sent + (next + left) == goal
    ensures sent + next + left == goal && sent + next <= goal
  {
    assert sent + next + left == sent + (next + left);
  }

  lemma ResumedFrame(h: Header, limit: nat, body: seq<byte>)
    requires h.length <= limit <= BUFFER_SIZE
    ensures ReadFrame(HeaderBytes(h) + body, limit) ==
            if |body| < h.length then Incomplete
            else Complete(Message(h.kind, body[..h.length]), HEADER_SIZE + h.length)
  {
    BufferSizeIsSizeT();
    DeserializeHeaderBytes(h, [], limit);
    var s := HeaderBytes(h) + body;
    assert s[..HEADER_SIZE] == HeaderBytes(h) + [];
    if |body| >= h.length {
      assert s[HEADER_SIZE..HEADER_SIZE + h.length] == body[..h.length];
    }
  }
}
