/** The sessions as objects: one socket each, one callback for the next message, one registry shared
    by all (src/AuthenticatedSession.cpp, src/ProxySession.cpp, src/ServerSessionsManager.cpp). */
module Sessions {
  import opened Messages
  import opened Framing
  import opened Streams
  import opened Sockets
  import opened Registry
  import opened Relays
  import opened Bridges
  import opened Protocol

  type Manager = ServerSessionsManager<ProxySession>

  datatype Callback = Authenticate | HandleMessages

  class ProxySession {
    const base: SocketBase
    var callback: Callback  // what the outstanding read, if any, will call

    constructor (stream: TlsStream)
      ensures base.Valid() && base.stream == stream && base.pending == NoRead && fresh(base)
    {
      base := new SocketBase(stream);
      callback := Authenticate;
    }

    ghost predicate Ready()
      reads this, base, base.stream
    {
      base.Valid() && base.pending.NoRead? && base.stream.open
    }

    /** The first message is bounded more tightly than the later ones. */
    method Start()
      requires base.Valid() && base.pending.NoRead?
      modifies this`callback, base`pending
      ensures base.Valid() && base.pending == AwaitHeader(1000) && callback == Authenticate
    {
      callback := Authenticate;
      var ok := base.AsyncReadMessage(FIRST_MESSAGE_MAX_SIZE);
    }

    method ScheduleNewAsyncRead()
      requires base.Valid() && base.pending.NoRead?
      modifies this`callback, base`pending
      ensures base.Valid() && base.pending == AwaitHeader(5 * 1024 * 1024) && callback == HandleMessages
    {
      callback := HandleMessages;
      var ok := base.AsyncReadMessage(BUFFER_SIZE);
    }

    /** Sends one frame. */
    method Reply(m: Message) returns (ok: bool)
      requires Fits(m, BUFFER_SIZE)
      modifies base.stream`outbound, base.stream`broken
      ensures ok ==> base.stream.outbound == old(base.stream.outbound) + EncodeFrame(m)
      ensures !ok ==> base.stream.Down()
                      && old(base.stream.outbound) <= base.stream.outbound <= old(base.stream.outbound) + EncodeFrame(m)
    {
      SmallMessageIsOneFrame(m);
      ok := base.Send(m);
    }

    /** The login gate: the decision of `OnFirstMessage` carried out. The session reads on exactly
        when the login succeeded and the ACK was written; a first message of another type is
        answered with a farewell and the socket is closed. */
    method AuthenticateCallback(message: Message, verdict: Verdict) returns (threw: bool)
      requires Ready()
      modifies this`callback, base`pending, base.stream`outbound, base.stream`broken, base.stream`open
      ensures base.Valid()
      ensures CarriedOut(OnFirstMessage(message, verdict), old(base.stream.outbound), base.stream.outbound,
                         base.pending != NoRead, threw)
      ensures threw ==> OnFirstMessage(message, verdict).Raise? || base.stream.Down()
      ensures message.kind == LOGIN && verdict.Accepted? && !threw ==>
                base.stream.outbound == old(base.stream.outbound) + EncodeFrame(Message(ACK, []))
                    && base.pending != NoRead
      ensures message.kind == LOGIN && verdict.Rejected? && !threw ==>
                base.stream.outbound == old(base.stream.outbound) + EncodeFrame(Message(NACK, []))
                    && base.pending == NoRead
      ensures message.kind != LOGIN && !threw ==>
                && base.stream.outbound == old(base.stream.outbound)
                                           + EncodeFrame(Message(DISCONNECT, Text("You have to login first.")))
                && base.pending == NoRead
      ensures !threw ==> base.stream.open == (message.kind == LOGIN)
      ensures base.pending != NoRead ==> base.pending == AwaitHeader(BUFFER_SIZE) && callback == HandleMessages
    {
      if message.kind != LOGIN {
        SmallMessageIsOneFrame(LOGIN_FIRST);
        var ok := base.Disconnect(Some(LOGIN_FIRST.content));
        return !ok;
      }
      match verdict
      case Throws(_) => threw := true;
      case Accepted =>
        var ok := Reply(ACCEPT);
        threw := !ok;
        if ok { ScheduleNewAsyncRead(); }
      case Rejected =>
        var ok := Reply(REFUSE);
        threw := !ok;
    }

    /** Any other message once logged in. The registry and the clock are shared with the cleaner,
        which may run whenever the lock is free. */
    method HandleRead(message: Message, manager: Manager, clock: Clock) returns (threw: bool, bridge: Bridge?)
      requires Ready() && manager.Valid() && Strangers(manager, this)
      modifies this`callback, base`pending, base.stream`outbound, base.stream`broken, base.stream`open
      modifies manager, clock, StreamsOf(manager)
      ensures base.Valid() && manager.Valid()
      ensures var found := message.content in old(manager.sessions);
              CarriedOut(OnMessage(message, found), old(base.stream.outbound), base.stream.outbound,
                  base.pending != NoRead, threw)
      ensures message.kind == REGISTER_STREAMER && !threw ==>
                && base.stream.outbound == old(base.stream.outbound) + EncodeFrame(Message(ID, [116, 101, 115, 116]))
                && base.pending == NoRead
      ensures message.kind == FIND_STREAMER && message.content in old(manager.sessions) && !threw ==>
                && base.stream.outbound == old(base.stream.outbound) + EncodeFrame(Message(ACK, []))
                && base.pending == NoRead
      ensures message.kind == FIND_STREAMER && message.content !in old(manager.sessions) && !threw ==>
                && base.stream.outbound == old(base.stream.outbound) + EncodeFrame(Message(NACK, []))
                && base.pending != NoRead
      ensures threw ==> base.stream.Down()
                        || (message.kind == FIND_STREAMER && message.content in old(manager.sessions)
                            && old(manager.sessions[message.content].session).base.stream.Down())
      ensures base.pending != NoRead ==> base.pending == AwaitHeader(BUFFER_SIZE) && callback == HandleMessages
      ensures message.kind == REGISTER_STREAMER ==> exists now: int ::
                && old(clock.time) <= now <= clock.time
                && OnlyExpirations(old(manager.log) + [Registered(SESSION_ID, this, now)], manager.log)
      ensures message.kind == FIND_STREAMER ==>
                if message.content in old(manager.sessions) then
                  && OnlyExpirations(old(manager.log) + [Claimed(message.content)], manager.log)
                  && (bridge == null <==> threw)
                  && (!threw ==> Bridged(old(manager.sessions[message.content].session), this, bridge))
                else OnlyExpirations(old(manager.log), manager.log) && bridge == null
      ensures message.kind != FIND_STREAMER ==> bridge == null
      ensures message.kind != REGISTER_STREAMER && message.kind != FIND_STREAMER ==>
                manager.sessions == old(manager.sessions) && manager.log == old(manager.log)
    {
      hide Matches, EncodeFrame, Bridged, OnlyExpirations, NotExpected;
      bridge := null;
      match message.kind
      case REGISTER_STREAMER =>
        var id := manager.RegisterStreamer(this, clock);
        OthersRun(manager, clock);
        var ok := Reply(Message(ID, id));
        threw := !ok;
      case FIND_STREAMER =>
        var found;
        found, threw, bridge := CreateBridgeWithStreamer(message.content, manager, clock);
        if !threw && !found {
          var ok := Reply(REFUSE);
          threw := !ok;
          if ok { ScheduleNewAsyncRead(); }
        }
      case _ =>
        NotExpectedFits(message.kind);
        var ok := Reply(NotExpected(message.kind));
        threw := !ok;
        if ok { ScheduleNewAsyncRead(); }
    }

    /** `this` is the receiver. Only the removal of the entry is done under the lock; the ACK, the
        START_STREAM and the bridge come after, and the bridge takes over both streams with their
        unread input untouched. */
    method CreateBridgeWithStreamer(code: Id, manager: Manager, clock: Clock) returns
      (found: bool, threw: bool, bridge: Bridge?)
      requires Ready() && manager.Valid() && Strangers(manager, this)
      modifies base.stream`outbound, base.stream`broken, base.stream`open, manager, clock, StreamsOf(manager)
      ensures manager.Valid() && found == (code in old(manager.sessions))
      ensures !found ==> !threw && bridge == null && base.stream.outbound == old(base.stream.outbound)
                         && OnlyExpirations(old(manager.log), manager.log)
      ensures found ==> OnlyExpirations(old(manager.log) + [Claimed(code)], manager.log)
      ensures found ==> CarriedOut(Answer(ACCEPT, false), old(base.stream.outbound), base.stream.outbound, false, threw)
      ensures found && !threw ==> bridge != null && Bridged(old(manager.sessions[code].session), this, bridge)
      ensures threw ==> bridge == null && found
                        && (base.stream.Down() || old(manager.sessions[code].session).base.stream.Down())
    {
      hide Matches, EncodeFrame;
      bridge, threw := null, false;
      var node := manager.ExtractStreamer(code);
      found := node.Some?;
      ghost var afterExtract := manager.log;
      OthersRun(manager, clock);
      if found {
        threw, bridge := Connect(node.value.session);
      }
    }

    /** What follows the removal: either write may fail, or a peer be lost, and then there is no bridge. */
    method Connect(sender: ProxySession) returns (threw: bool, bridge: Bridge?)
      requires sender.base.stream != base.stream
      modifies base.stream`outbound, base.stream`broken, base.stream`open
      modifies sender.base.stream`outbound, sender.base.stream`broken, sender.base.stream`open
      ensures CarriedOut(Answer(ACCEPT, false), old(base.stream.outbound), base.stream.outbound, false, threw)
      ensures threw ==> bridge == null && (base.stream.Down() || sender.base.stream.Down())
                        && old(sender.base.stream.outbound) <= sender.base.stream.outbound
                           <= old(sender.base.stream.outbound) + EncodeFrame(START)
      ensures sender.base.stream.outbound != old(sender.base.stream.outbound) ==>
                base.stream.outbound == old(base.stream.outbound) + EncodeFrame(ACCEPT)
      ensures !threw ==> bridge != null && fresh(bridge) && Bridged(sender, this, bridge)
    {
      var ok := Reply(ACCEPT);
      if !ok { return true, null; }
      ok := sender.Reply(START);
      if !ok { return true, null; }
      bridge := Bridge.Join(sender.base.stream, base.stream);
      if bridge == null { return true, null; }
      bridge.Start();
      threw := false;
    }
  }

  /** The bridge joins exactly these two streams, told START_STREAM and ACK, and what it will relay is
      what they have not read. */
  twostate predicate Bridged(streamer: ProxySession, viewer: ProxySession, new bridge: Bridge)
    reads bridge, streamer, streamer.base, streamer.base.stream, viewer.base, viewer.base.stream, bridge.peerOne,
          bridge.peerTwo
  {
    && bridge.Valid() && bridge.upstreamArmed && bridge.downstreamArmed
    && bridge.peerOne == old(streamer.base.stream) && bridge.peerTwo == old(viewer.base.stream)
    && bridge.toOne == old(streamer.base.stream.outbound) + EncodeFrame(Message(START_STREAM, []))
    && bridge.toTwo == old(viewer.base.stream.outbound) + EncodeFrame(Message(ACK, []))
    && bridge.up == Pipe(old(viewer.base.stream.inbound), 0, [], true)
    && bridge.down == Pipe(old(streamer.base.stream.inbound), 0, [], true)
  }

  ghost function StreamsOf(manager: Manager): set<TlsStream>
    reads manager, set id | id in manager.sessions :: manager.sessions[id].session.base
  {
    set id | id in manager.sessions :: manager.sessions[id].session.base.stream
  }

  /** The session is not waiting in the registry, and none of its parts belongs to one that is. */
  ghost predicate Strangers(manager: Manager, session: ProxySession)
    reads manager, session, session.base, set id | id in manager.sessions :: manager.sessions[id].session.base
  {
    forall id :: id in manager.sessions ==>
      manager.sessions[id].session.base != session.base
          && manager.sessions[id].session.base.stream != session.base.stream
  }

  /** The cleaner's turn: any number of sweeps, none included. */
  method OthersRun(manager: Manager, clock: Clock)
    requires manager.Valid()
    modifies manager, clock
    ensures manager.Valid() && old(clock.time) <= clock.time && OnlyExpirations(old(manager.log), manager.log)
  {
    var sweeps: int :| 0 <= sweeps;
    while sweeps > 0
      invariant manager.Valid() && old(clock.time) <= clock.time && OnlyExpirations(old(manager.log), manager.log)
    {
      var timeout: int := *;
      ghost var before := manager.log;
      ghost var visited := manager.TerminateTimeoutClients(timeout, clock);
      ExpirationsGrow(old(manager.log), before, manager.log);
      sweeps := sweeps - 1;
    }
  }
}
