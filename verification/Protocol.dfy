/** How the server answers a message: the decisions of `authenticateCallback` and `handleRead`
    (src/AuthenticatedSession.cpp, src/ProxySession.cpp), apart from where they happen. */
module Protocol {
  import opened Messages
  import opened Framing
  import opened Registry

  function Text(s: string): seq<byte> {
    seq(|s|, i requires 0 <= i < |s| => (s[i] as int) % 256)
  }

  // MESSAGE_TYPE_TO_STR
  function TypeName(t: MessageType): string {
    match t
    case JUST_A_MESSAGE => "JUST_A_MESSAGE"
    case LOGIN => "LOGIN"
    case REGISTER_STREAMER => "REGISTER_STREAMER"
    case FIND_STREAMER => "FIND_STREAMER"
    case START_STREAM => "START_STREAM"
    case RESPONSE => "RESPONSE"
    case ID => "ID"
    case ACK => "ACK"
    case NACK => "NACK"
    case MOUSE_INPUT => "MOUSE_INPUT"
    case KEYBOARD_INPUT => "KEYBOARD_INPUT"
    case SCREEN_UPDATE => "SCREEN_UPDATE"
    case DISCONNECT => "DISCONNECT"
  }

  const FIRST_MESSAGE_MAX_SIZE := 1000

  const ACCEPT := Message(ACK, [])
  const REFUSE := Message(NACK, [])
  const GRANTED := Message(ID, SESSION_ID)
  const START := Message(START_STREAM, [])
  const LOGIN_FIRST := Message(DISCONNECT, Text("You have to login first."))

  function NotExpected(t: MessageType): Message {
    Message(RESPONSE, Text("Did not expect " + TypeName(t) + " message."))
  }

  lemma NotExpectedFits(t: MessageType)
    ensures Fits(NotExpected(t), BUFFER_SIZE)
  {
  }

  /** What the users manager says about the credentials in a LOGIN message; parsing them, or asking,
      may throw. */
  datatype Verdict = Accepted | Rejected | Throws(what: seq<byte>)

  /** What a handler does: answer and read on, answer for the last time, or fail with an exception
      (which the reader turns into a farewell). */
  datatype Reaction = Answer(reply: Message, rearm: bool) | Raise(what: seq<byte>)

  function OnFirstMessage(m: Message, verdict: Verdict): Reaction {
    if m.kind != LOGIN then Answer(LOGIN_FIRST, false)
    else match verdict
      case Accepted => Answer(ACCEPT, true)
      case Rejected => Answer(REFUSE, false)
      case Throws(what) => Raise(what)
  }

  /** The answer to a message after the login; `found` says whether what a find asks for is registered. */
  function OnMessage(m: Message, found: bool): Reaction {
    match m.kind
    case REGISTER_STREAMER => Answer(GRANTED, false)
    case FIND_STREAMER => if found then Answer(ACCEPT, false) else Answer(REFUSE, true)
    case _ => Answer(NotExpected(m.kind), true)
  }

  /** The contract of a handler towards its own connection, given what was written to it before and after:
      the answer is written and the next read armed if it is to be; or the handler fails, having written
      some first part of the answer and armed nothing. */
  ghost predicate CarriedOut(r: Reaction, out: seq<byte>, out': seq<byte>, readsOn: bool, threw: bool) {
    match r
    case Raise(_) => threw && !readsOn && out' == out
    case Answer(reply, rearm) =>
      if threw then !readsOn && out <= out' <= out + EncodeFrame(reply)
      else readsOn == rearm && out' == out + EncodeFrame(reply)
  }

  // ---------------------------------------------------------------- the answers spelled out

  const NAMES := ["JUST_A_MESSAGE", "LOGIN", "REGISTER_STREAMER", "FIND_STREAMER", "START_STREAM", "RESPONSE", "ID",
                  "ACK", "NACK", "MOUSE_INPUT", "KEYBOARD_INPUT", "SCREEN_UPDATE", "DISCONNECT"]

  /** A text goes over the wire as the codes of its characters, and a type is named by its place in the
      enumeration. */
  lemma NamesAndTexts(s: string, i: nat, k: nat)
    requires i < |s| && s[i] < 256 as char && k < 13
    ensures |Text(s)| == |s| && Text(s)[i] == s[i] as int
    ensures TypeName(KINDS[k]) == NAMES[k]
  {
    WireVocabulary(k, KINDS[k]);
  }

  /** What the first message is answered with: only a login that is accepted goes on; one that is refused is
      told NACK, and anything but a login is told to log in. */
  lemma FirstAnswer(m: Message, verdict: Verdict)
    ensures m.kind == LOGIN && verdict == Accepted ==> OnFirstMessage(m, verdict) == Answer(Message(ACK, []), true)
    ensures m.kind == LOGIN && verdict == Rejected ==> OnFirstMessage(m, verdict) == Answer(Message(NACK, []), false)
    ensures m.kind == LOGIN && verdict.Throws? ==> OnFirstMessage(m, verdict) == Raise(verdict.what)
    ensures m.kind != LOGIN ==>
              OnFirstMessage(m, verdict) == Answer(Message(DISCONNECT, Text("You have to login first.")), false)
  {
  }

  /** What any later message is answered with. */
  lemma LaterAnswer(k: nat, content: seq<byte>, found: bool)
    requires k < 13
    ensures OnMessage(Message(KINDS[k], content), found) ==
            if k == 2 then Answer(Message(ID, Text("test")), false)
            else if k == 3 && found then Answer(Message(ACK, []), false)
            else if k == 3 then Answer(Message(NACK, []), true)
            else Answer(Message(RESPONSE, Text("Did not expect " + NAMES[k] + " message.")), true)
  {
    NamesAndTexts("t", 0, k);
    assert Text("test") == SESSION_ID;
  }
}
