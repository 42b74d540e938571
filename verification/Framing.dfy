/** Frames on a byte stream: what `sendChunk` writes, what the readers parse back, and how
    `send` cuts a message into frames (src/SocketBase.cpp). */
module Framing {
  import opened Messages

  // ---------------------------------------------------------------- writing and reading frames

  function HeaderOf(m: Message): Header {
    Header(|m.content|, m.kind)
  }

  function EncodeFrame(m: Message): (s: seq<byte>)
    ensures |s| == HEADER_SIZE + |m.content|
  {
    HeaderBytes(HeaderOf(m)) + m.content
  }

  function EncodeAll(ms: seq<Message>): seq<byte> {
    if ms == [] then [] else EncodeFrame(ms[0]) + EncodeAll(ms[1..])
  }

  /** A frame is the nine bytes of its header and then the content as it is. */
  lemma FrameLayout(m: Message, i: nat)
    requires i < |m.content|
    ensures |EncodeFrame(m)| == 9 + |m.content| && EncodeFrame(m)[..9] == HeaderBytes(Header(|m.content|, m.kind))
    ensures EncodeFrame(m)[9 + i] == m.content[i]
  {
  }

  /** A message that a reader with `limit` accepts as one frame. */
  predicate Fits(m: Message, limit: nat) {
    |m.content| <= limit
  }

  ghost predicate AllFit(ms: seq<Message>) {
    forall m :: m in ms ==> Fits(m, BUFFER_SIZE)
  }

  datatype Parsed = Incomplete | Malformed(error: HeaderError) | Complete(message: Message, size: nat)

  /** One read: a header, then exactly as many body bytes as it announces. */
  function ReadFrame(s: seq<byte>, limit: nat): Parsed {
    if |s| < HEADER_SIZE then Incomplete
    else match Deserialize(s[..HEADER_SIZE], limit)
      case Err(e) => Malformed(e)
      case Ok(h) =>
        if |s| < HEADER_SIZE + h.length then Incomplete
        else Complete(Message(h.kind, s[HEADER_SIZE..HEADER_SIZE + h.length]), HEADER_SIZE + h.length)
  }

  datatype Reading = Reading(messages: seq<Message>, rest: seq<byte>)

  /** Everything a peer that keeps calling `receive` gets out of `s`. */
  function ReadAll(s: seq<byte>): (r: Reading)
    decreases |s|
  {
    match ReadFrame(s, BUFFER_SIZE)
    case Complete(m, n) =>
      var tail := ReadAll(s[n..]);
      Reading([m] + tail.messages, tail.rest)
    case _ => Reading([], s)
  }

  lemma BufferSizeIsSizeT()
    ensures BUFFER_SIZE < Pow256(LENGTH_SIZE)
  {
    SizeTRange();
  }

  lemma ReadEncodedFrame(m: Message, tail: seq<byte>, limit: nat)
    requires Fits(m, limit) && limit <= BUFFER_SIZE
    ensures ReadFrame(EncodeFrame(m) + tail, limit) == Complete(m, |EncodeFrame(m)|)
  {
    BufferSizeIsSizeT();
    var s := EncodeFrame(m) + tail;
    DeserializeHeaderBytes(HeaderOf(m), [], limit);
    assert s[..HEADER_SIZE] == HeaderBytes(HeaderOf(m)) + [];
    assert s[HEADER_SIZE..HEADER_SIZE + |m.content|] == m.content;
  }

  /** A frame is read from a stream exactly when the stream starts with the encoding of a message
      within the limit; nothing else is ever accepted, and exactly its bytes are consumed. */
  lemma ReadFrameExact(s: seq<byte>, limit: nat, m: Message)
    requires limit <= BUFFER_SIZE
    ensures (exists n: nat :: ReadFrame(s, limit) == Complete(m, n)) <==> EncodeFrame(m) <= s && Fits(m, limit)
    ensures forall n: nat :: ReadFrame(s, limit) == Complete(m, n) ==> n == |EncodeFrame(m)| && s[..n] == EncodeFrame(m)
  {
    if EncodeFrame(m) <= s && Fits(m, limit) {
      assert s == EncodeFrame(m) + s[|EncodeFrame(m)|..];
      ReadEncodedFrame(m, s[|EncodeFrame(m)|..], limit);
    }
    if ReadFrame(s, limit).Complete? && ReadFrame(s, limit).message == m {
      DeserializeExact(s[..HEADER_SIZE], limit);
      assert s[..HEADER_SIZE][..HEADER_SIZE] == s[..HEADER_SIZE];
      assert s[..HEADER_SIZE + |m.content|] == s[..HEADER_SIZE] + m.content;
    }
  }

  /** A cut in the middle of a frame is waited for, never misread. */
  lemma ReadPartialFrame(m: Message, s: seq<byte>, limit: nat)
    requires Fits(m, limit) && limit <= BUFFER_SIZE
    requires s < EncodeFrame(m)
    ensures ReadFrame(s, limit) == Incomplete
  {
    if |s| >= HEADER_SIZE {
      BufferSizeIsSizeT();
      DeserializeHeaderBytes(HeaderOf(m), [], limit);
      assert s[..HEADER_SIZE] == HeaderBytes(HeaderOf(m)) + [];
    }
  }

  lemma {:induction false} EncodeAllConcat(a: seq<Message>, b: seq<Message>)
    ensures EncodeAll(a + b) == EncodeAll(a) + EncodeAll(b)
  {
    if a == [] {
      assert a + b == b;
    } else {
      assert (a + b)[1..] == a[1..] + b;
      EncodeAllConcat(a[1..], b);
    }
  }

  lemma EncodeOne(m: Message)
    ensures EncodeAll([m]) == EncodeFrame(m)
  {
  }

  lemma EncodeAppend(a: seq<Message>, m: Message)
    ensures EncodeAll(a + [m]) == EncodeAll(a) + EncodeFrame(m)
  {
    EncodeAllConcat(a, [m]);
  }

  lemma ReadAllStep(m: Message, tail: seq<byte>)
    requires Fits(m, BUFFER_SIZE)
    ensures ReadAll(EncodeFrame(m) + tail) == Reading([m] + ReadAll(tail).messages, ReadAll(tail).rest)
  {
    ReadEncodedFrame(m, tail, BUFFER_SIZE);
    assert (EncodeFrame(m) + tail)[|EncodeFrame(m)|..] == tail;
  }

  lemma EncodeThen(ms: seq<Message>, tail: seq<byte>, after: seq<byte>)
    requires ms != [] && after == EncodeAll(ms[1..]) + tail
    ensures EncodeAll(ms) + tail == EncodeFrame(ms[0]) + after
  {
  }

  lemma JoinLists<T>(a: seq<T>, b: seq<T>)
    requires a != []
    ensures [a[0]] + (a[1..] + b) == a + b
  {
  }

  lemma ReadAllStop(s: seq<byte>)
    requires !ReadFrame(s, BUFFER_SIZE).Complete?
    ensures ReadAll(s) == Reading([], s)
  {
  }

  /** Reading a concatenation of frames gives back the list, then whatever follows it. */
  lemma {:induction false} ReadEncoded(ms: seq<Message>, tail: seq<byte>)
    requires AllFit(ms)
    ensures ReadAll(EncodeAll(ms) + tail) == Reading(ms + ReadAll(tail).messages, ReadAll(tail).rest)
  {
    if ms == [] {
      assert EncodeAll(ms) + tail == tail;
      assert ms + ReadAll(tail).messages == ReadAll(tail).messages;
    } else {
      var after := EncodeAll(ms[1..]) + tail;
      ReadEncoded(ms[1..], tail);
      EncodeThen(ms, tail, after);
      ReadAllStep(ms[0], after);
      JoinLists(ms, ReadAll(tail).messages);
    }
  }

  lemma {:induction false} ReadAllSplit(s: seq<byte>) returns (ms: seq<Message>, rest: seq<byte>)
    ensures s == EncodeAll(ms) + rest && AllFit(ms) && !ReadFrame(rest, BUFFER_SIZE).Complete?
    decreases |s|
  {
    var step := ReadFrame(s, BUFFER_SIZE);
    if step.Complete? {
      var m, n := step.message, step.size;
      ReadFrameExact(s, BUFFER_SIZE, m);
      var ms', rest' := ReadAllSplit(s[n..]);
      ms, rest := [m] + ms', rest';
      assert ms[1..] == ms';
      assert s == s[..n] + s[n..];
    } else {
      ms, rest := [], s;
    }
  }

  /** Every byte string is the encoding of what is read from it, followed by a rest from which no
      further frame can be read. */
  lemma ReadAllExact(s: seq<byte>)
    ensures var r := ReadAll(s);
            && s == EncodeAll(r.messages) + r.rest && AllFit(r.messages)
            && !ReadFrame(r.rest, BUFFER_SIZE).Complete?
  {
    var ms, rest := ReadAllSplit(s);
    ReadEncoded(ms, rest);
    ReadAllStop(rest);
    assert ms + [] == ms;
  }

  /** Two different lists of frames never share an encoding, not even as prefixes of one stream
      with nothing complete left over. */
  lemma EncodingUnambiguous(a: seq<Message>, b: seq<Message>, restA: seq<byte>, restB: seq<byte>)
    requires AllFit(a) && AllFit(b)
    requires !ReadFrame(restA, BUFFER_SIZE).Complete? && !ReadFrame(restB, BUFFER_SIZE).Complete?
    requires EncodeAll(a) + restA == EncodeAll(b) + restB
    ensures a == b && restA == restB
  {
    ReadEncoded(a, restA);
    ReadEncoded(b, restB);
    ReadAllStop(restA);
    ReadAllStop(restB);
    assert a + [] == a && b + [] == b;
  }

  lemma ExtendRest(p: seq<byte>, s: seq<byte>, done: seq<byte>, rest: seq<byte>)
    requires p <= s && p == done + rest
    ensures s == done + (rest + s[|p|..])
  {
  }

  /** However a stream is cut, the messages already readable are a prefix of those of the whole. */
  lemma ReadPrefix(p: seq<byte>, s: seq<byte>)
    requires p <= s
    ensures ReadAll(p).messages <= ReadAll(s).messages
  {
    ReadAllExact(p);
    var r := ReadAll(p);
    ExtendRest(p, s, EncodeAll(r.messages), r.rest);
    ReadEncoded(r.messages, r.rest + s[|p|..]);
  }

  // ---------------------------------------------------------------- chunking

  /** The frames into which `send` cuts a message. */
  function Chunks(m: Message): (fs: seq<Message>)
    ensures fs != []
    decreases |m.content|
  {
    if |m.content| > BUFFER_SIZE
    then [Message(m.kind, m.content[..BUFFER_SIZE])] + Chunks(Message(m.kind, m.content[BUFFER_SIZE..]))
    else [m]
  }

  function Joined(fs: seq<Message>): seq<byte> {
    if fs == [] then [] else fs[0].content + Joined(fs[1..])
  }

  /** The contract of chunking, without saying how it is done: same type throughout, all frames
      full but the last, none empty unless the message is, and the contents join up. */
  ghost predicate IsChunking(m: Message, fs: seq<Message>) {
    && fs != []
    && (forall i :: 0 <= i < |fs| ==> fs[i].kind == m.kind)
    && (forall i :: 0 <= i < |fs| - 1 ==> |fs[i].content| == BUFFER_SIZE)
    && |fs[|fs| - 1].content| <= BUFFER_SIZE
    && (|fs| > 1 ==> fs[|fs| - 1].content != [])
    && Joined(fs) == m.content
  }

  lemma {:induction false} ChunkingLength(m: Message, fs: seq<Message>)
    requires IsChunking(m, fs)
    ensures |fs| == 1 <==> |m.content| <= BUFFER_SIZE
    ensures |m.content| == BUFFER_SIZE * (|fs| - 1) + |fs[|fs| - 1].content|
    decreases |fs|
  {
    assert Joined(fs) == fs[0].content + Joined(fs[1..]);
    if |fs| > 1 {
      var rest := Message(m.kind, m.content[BUFFER_SIZE..]);
      assert Joined(fs[1..]) == rest.content;
      forall i | 0 <= i < |fs[1..]| - 1 ensures |fs[1..][i].content| == BUFFER_SIZE {
        assert fs[1..][i] == fs[i + 1];
      }
      ChunkingLength(rest, fs[1..]);
    } else {
      assert Joined(fs[1..]) == [];
    }
  }

  lemma {:induction false} ChunksAreChunking(m: Message)
    ensures IsChunking(m, Chunks(m)) && AllFit(Chunks(m))
    decreases |m.content|
  {
    var fs := Chunks(m);
    assert Joined(fs) == fs[0].content + Joined(fs[1..]);
    if |m.content| > BUFFER_SIZE {
      var rest := Message(m.kind, m.content[BUFFER_SIZE..]);
      ChunksAreChunking(rest);
      assert fs[1..] == Chunks(rest);
      forall i | 0 <= i < |fs| ensures fs[i].kind == m.kind && (i < |fs| - 1 ==> |fs[i].content| == BUFFER_SIZE) {
        if i > 0 { assert fs[i] == fs[1..][i - 1]; }
      }
      assert fs[|fs| - 1] == fs[1..][|fs[1..]| - 1];
      ChunkingLength(rest, fs[1..]);
    } else {
      assert Joined(fs[1..]) == [];
    }
  }

  lemma {:induction false} ChunkingIsChunks(m: Message, fs: seq<Message>)
    requires IsChunking(m, fs)
    ensures fs == Chunks(m)
    decreases |m.content|
  {
    ChunkingLength(m, fs);
    assert Joined(fs) == fs[0].content + Joined(fs[1..]);
    if |m.content| > BUFFER_SIZE {
      var rest := Message(m.kind, m.content[BUFFER_SIZE..]);
      assert fs[0] == Message(m.kind, m.content[..BUFFER_SIZE]);
      forall i | 0 <= i < |fs[1..]| - 1 ensures |fs[1..][i].content| == BUFFER_SIZE {
        assert fs[1..][i] == fs[i + 1];
      }
      ChunkingIsChunks(rest, fs[1..]);
      assert fs == [fs[0]] + fs[1..];
    } else {
      assert fs[0] == m;
    }
  }

  /** Chunking is determined by its contract, and `Chunks` is what meets it: exactly
      ceil(n / 5 MiB) frames, one when the message is empty. */
  lemma ChunksExact(m: Message, fs: seq<Message>)
    ensures fs == Chunks(m) <==> IsChunking(m, fs)
    ensures fs == Chunks(m) ==> AllFit(fs)
    ensures fs == Chunks(m) ==>
              |fs| == if m.content == [] then 1 else (|m.content| + 5_242_879) / 5_242_880
  {
    ChunksAreChunking(m);
    if IsChunking(m, fs) { ChunkingIsChunks(m, fs); }
    ChunkingLength(m, Chunks(m));
  }

  lemma SmallMessageIsOneFrame(m: Message)
    requires Fits(m, BUFFER_SIZE)
    ensures Chunks(m) == [m] && EncodeAll(Chunks(m)) == EncodeFrame(m)
  {
  }

  /** The frame list a peer puts on the wire when it sends `ms` one after the other. */
  function ChunkAll(ms: seq<Message>): seq<Message> {
    if ms == [] then [] else Chunks(ms[0]) + ChunkAll(ms[1..])
  }

  /** It grows by the frames of each further message, which is what one more `send` writes. */
  lemma {:induction false} ChunkAllAppend(ms: seq<Message>, m: Message)
    ensures ChunkAll(ms + [m]) == ChunkAll(ms) + Chunks(m)
    ensures EncodeAll(ChunkAll(ms + [m])) == EncodeAll(ChunkAll(ms)) + EncodeAll(Chunks(m))
    decreases |ms|
  {
    hide EncodeAll, Chunks;
    if ms == [] {
      assert ms + [m] == [m] && [m][1..] == [];
    } else {
      ChunkAllAppend(ms[1..], m);
      assert (ms + [m])[1..] == ms[1..] + [m];
      Grouped(Chunks(ms[0]), ChunkAll(ms[1..]), Chunks(m));
    }
    EncodeAllConcat(ChunkAll(ms), Chunks(m));
  }

  lemma Grouped<T>(a: seq<T>, b: seq<T>, c: seq<T>)
    ensures a + (b + c) == a + b + c
  {
  }

  lemma {:induction false} ChunkAllFits(ms: seq<Message>)
    ensures AllFit(ChunkAll(ms))
  {
    if ms != [] {
      ChunksExact(ms[0], Chunks(ms[0]));
      ChunkAllFits(ms[1..]);
    }
  }

  /** Sending any list of messages and reading it back gives the chunk-expanded list, and of every
      prefix of the bytes a prefix of that list. */
  lemma SendThenRead(ms: seq<Message>, p: seq<byte>)
    requires p <= EncodeAll(ChunkAll(ms))
    ensures ReadAll(p).messages <= ChunkAll(ms)
    ensures p == EncodeAll(ChunkAll(ms)) ==> ReadAll(p) == Reading(ChunkAll(ms), [])
  {
    var s := EncodeAll(ChunkAll(ms));
    ChunkAllFits(ms);
    ReadEncoded(ChunkAll(ms), []);
    assert s + [] == s;
    assert ReadAll([]) == Reading([], []);
    assert ChunkAll(ms) + [] == ChunkAll(ms);
    ReadPrefix(p, s);
  }
}
