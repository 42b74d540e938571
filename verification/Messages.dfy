/** The message vocabulary of the wire protocol and its nine-byte header
    (include/Message.hpp, src/MessageHeader.cpp). */
module Messages {

  datatype Option<+T> = None | Some(value: T)
  datatype Result<+T, +E> = Ok(value: T) | Err(error: E)

  type byte = b: int | 0 <= b < 256

  // sizeof(std::size_t) bytes of length, in host (little-endian) order, and one byte of type
  const LENGTH_SIZE := 8
  const HEADER_SIZE := 9
  // SocketBase::BUFFER_SIZE
  const BUFFER_SIZE := 5242880

  datatype MessageType =
    | JUST_A_MESSAGE | LOGIN | REGISTER_STREAMER | FIND_STREAMER | START_STREAM | RESPONSE | ID
    | ACK | NACK | MOUSE_INPUT | KEYBOARD_INPUT | SCREEN_UPDATE | DISCONNECT

  const MAX_TYPE_CODE := 12

  function TypeCode(t: MessageType): (c: byte)
    ensures c <= MAX_TYPE_CODE
  {
    match t
    case JUST_A_MESSAGE => 0
    case LOGIN => 1
    case REGISTER_STREAMER => 2
    case FIND_STREAMER => 3
    case START_STREAM => 4
    case RESPONSE => 5
    case ID => 6
    case ACK => 7
    case NACK => 8
    case MOUSE_INPUT => 9
    case KEYBOARD_INPUT => 10
    case SCREEN_UPDATE => 11
    case DISCONNECT => 12
  }

  function TypeOfCode(c: byte): (t: MessageType)
    requires c <= MAX_TYPE_CODE
    ensures TypeCode(t) == c
  {
    if c == 0 then JUST_A_MESSAGE else if c == 1 then LOGIN else if c == 2 then REGISTER_STREAMER
    else if c == 3 then FIND_STREAMER else if c == 4 then START_STREAM else if c == 5 then RESPONSE
    else if c == 6 then ID else if c == 7 then ACK else if c == 8 then NACK else if c == 9 then MOUSE_INPUT
    else if c == 10 then KEYBOARD_INPUT else if c == 11 then SCREEN_UPDATE else DISCONNECT
  }

  // the types in the order in which the enumeration declares them
  const KINDS := [JUST_A_MESSAGE, LOGIN, REGISTER_STREAMER, FIND_STREAMER, START_STREAM, RESPONSE, ID,
                  ACK, NACK, MOUSE_INPUT, KEYBOARD_INPUT, SCREEN_UPDATE, DISCONNECT]

  /** A type's code on the wire is its place in the enumeration, and there are no others. */
  lemma WireVocabulary(i: nat, t: MessageType)
    ensures |KINDS| == 13 && t in KINDS
    ensures i < 13 ==> TypeCode(KINDS[i]) == i && TypeOfCode(i) == KINDS[i]
  {
    match t
    case JUST_A_MESSAGE => assert KINDS[0] == t;
    case LOGIN => assert KINDS[1] == t;
    case REGISTER_STREAMER => assert KINDS[2] == t;
    case FIND_STREAMER => assert KINDS[3] == t;
    case START_STREAM => assert KINDS[4] == t;
    case RESPONSE => assert KINDS[5] == t;
    case ID => assert KINDS[6] == t;
    case ACK => assert KINDS[7] == t;
    case NACK => assert KINDS[8] == t;
    case MOUSE_INPUT => assert KINDS[9] == t;
    case KEYBOARD_INPUT => assert KINDS[10] == t;
    case SCREEN_UPDATE => assert KINDS[11] == t;
    case DISCONNECT => assert KINDS[12] == t;
  }

  datatype Message = Message(kind: MessageType, content: seq<byte>)
  datatype Header = Header(length: nat, kind: MessageType)
  datatype HeaderError = BufferTooShort | MessageTooLong | UnknownType

  // ---------------------------------------------------------------- integers as bytes

  /** The low `k` bytes of `n`, least significant first: what a fixed-width integer looks like
      in memory. Larger values wrap. */
  function ToBytes(n: nat, k: nat): (s: seq<byte>)
    ensures |s| == k
  {
    if k == 0 then [] else [n % 256] + ToBytes(n / 256, k - 1)
  }

  function FromBytes(s: seq<byte>): nat {
    if s == [] then 0 else s[0] + 256 * FromBytes(s[1..])
  }

  function Pow256(k: nat): (p: nat)
    ensures p > 0
  {
    if k == 0 then 1 else 256 * Pow256(k - 1)
  }

  lemma {:induction false} BytesOfInteger(n: nat, k: nat)
    requires n < Pow256(k)
    ensures FromBytes(ToBytes(n, k)) == n
  {
    if k > 0 {
      BytesOfInteger(n / 256, k - 1);
      assert ToBytes(n, k)[1..] == ToBytes(n / 256, k - 1);
    }
  }

  lemma {:induction false} IntegerOfBytes(s: seq<byte>)
    ensures FromBytes(s) < Pow256(|s|)
    ensures ToBytes(FromBytes(s), |s|) == s
  {
    if s != [] {
      IntegerOfBytes(s[1..]);
      assert FromBytes(s) % 256 == s[0] && FromBytes(s) / 256 == FromBytes(s[1..]);
    }
  }

  // ---------------------------------------------------------------- quotients

  lemma QuotientIs(n: nat, d: nat, q: int, r: nat)
    requires r < d && n == d * q + r
    ensures n / d == q
  {
    var q', r' := n / d, n % d;
    assert n == d * q' + r';
    assert d * (q - q') == d * q - d * q' && d * (q' - q) == d * q' - d * q;
    if q > q' { AtLeastOnce(d, q - q'); }
    if q < q' { AtLeastOnce(d, q' - q); }
  }

  lemma {:induction false} AtLeastOnce(d: nat, k: nat)
    requires k >= 1
    ensures d * k >= d
    decreases k
  {
    assert d * k == d * (k - 1) + d;
    if k > 1 { AtLeastOnce(d, k - 1); }
  }

  lemma DivideTwice(n: nat, p: nat)
    requires p > 0
    ensures n / 256 / p == n / (256 * p)
  {
    var q, r := n / 256, n % 256;
    var a, b := q / p, q % p;
    assert q == p * a + b;
    assert n == 256 * (p * a) + (256 * b + r);
    assert 256 * (p * a) == (256 * p) * a;
    QuotientIs(n, 256 * p, a, 256 * b + r);
  }

  /** The i-th byte in memory is the i-th digit to the base 256, the lowest first. */
  lemma {:induction false} ByteAt(n: nat, k: nat, i: nat)
    requires i < k
    ensures ToBytes(n, k)[i] == n / Pow256(i) % 256
    decreases k
  {
    if i > 0 {
      ByteAt(n / 256, k - 1, i - 1);
      DivideTwice(n, Pow256(i - 1));
    }
  }

  lemma SizeTRange()
    ensures Pow256(LENGTH_SIZE) == 0x1_0000_0000_0000_0000
  {
    assert Pow256(4) == 0x1_0000_0000;
    assert Pow256(5) == 0x100_0000_0000 && Pow256(6) == 0x1_0000_0000_0000;
  }

  // ---------------------------------------------------------------- the header

  function HeaderBytes(h: Header): (s: seq<byte>)
    ensures |s| == HEADER_SIZE
  {
    ToBytes(h.length, LENGTH_SIZE) + [TypeCode(h.kind)]
  }

  /** The nine bytes of a header: the length, lowest byte first, and the type's place in the enumeration. */
  lemma HeaderLayout(length: nat, k: nat, i: nat)
    requires k < 13 && i < 8
    ensures var s := HeaderBytes(Header(length, KINDS[k]));
            |s| == 9 && s[i] == length / Pow256(i) % 256 && s[8] == k
  {
    ByteAt(length, LENGTH_SIZE, i);
    WireVocabulary(k, KINDS[k]);
  }

  /** `MessageHeader::deserialize`: `buffer` stands for the pointer together with `buffer_size`. */
  function Deserialize(buffer: seq<byte>, maxLength: nat): Result<Header, HeaderError> {
    if |buffer| < HEADER_SIZE then Err(BufferTooShort)
    else
      var length := FromBytes(buffer[..LENGTH_SIZE]);
      var declared := buffer[LENGTH_SIZE];
      if length > maxLength then Err(MessageTooLong)
      else if declared > MAX_TYPE_CODE then Err(UnknownType)
      else Ok(Header(length, TypeOfCode(declared)))
  }

  /** Decoding undoes encoding, for every header a `size_t` can hold and every limit it respects. */
  lemma DeserializeHeaderBytes(h: Header, tail: seq<byte>, maxLength: nat)
    requires h.length <= maxLength && h.length < Pow256(LENGTH_SIZE)
    ensures Deserialize(HeaderBytes(h) + tail, maxLength) == Ok(h)
  {
    var s := HeaderBytes(h) + tail;
    assert s[..LENGTH_SIZE] == ToBytes(h.length, LENGTH_SIZE);
    BytesOfInteger(h.length, LENGTH_SIZE);
    assert TypeOfCode(TypeCode(h.kind)) == h.kind;
  }

  /** Encoding undoes decoding; a header is accepted exactly when the three checks pass, and the error is
      that of the first which does not. */
  lemma DeserializeExact(s: seq<byte>, maxLength: nat)
    ensures Deserialize(s, maxLength).Ok? <==>
              |s| >= 9 && FromBytes(s[..8]) <= maxLength && s[8] <= 12
    ensures Deserialize(s, maxLength) == Err(BufferTooShort) <==> |s| < 9
    ensures Deserialize(s, maxLength) == Err(MessageTooLong) <==> |s| >= 9 && FromBytes(s[..8]) > maxLength
    ensures forall h :: Deserialize(s, maxLength) == Ok(h) ==> h.kind == KINDS[s[8]]
    ensures forall h :: Deserialize(s, maxLength) == Ok(h) ==>
              h.length <= maxLength && h.length < Pow256(LENGTH_SIZE) && s[..HEADER_SIZE] == HeaderBytes(h)
  {
    if Deserialize(s, maxLength).Ok? {
      WireVocabulary(s[8], KINDS[s[8]]);
      IntegerOfBytes(s[..LENGTH_SIZE]);
      var h := Deserialize(s, maxLength).value;
      assert s[..HEADER_SIZE] == s[..LENGTH_SIZE] + [s[LENGTH_SIZE]];
    }
  }
}
