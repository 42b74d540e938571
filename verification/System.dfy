/** The viewer's hands and the streamer's X server, with the proxy in between. */
module System {
  import opened Messages
  import opened Framing
  import opened Input
  import opened Viewer
  import opened ViewerClient
  import opened Streamer
  import opened Rendezvous
  import opened RendezvousInvariant
  import opened RendezvousSteps
  import opened RendezvousTheorems

  /** In every reachable state of the proxy and for every bridge: let `ps` be all that the viewer's loop has
      polled (frames of other sizes included) since the viewer asked for the streamer, and let its bytes be
      as `ScreenViewerClient.Valid` says; let the streamer's client have read its session's replies, then
      the messages `received`, and injected those in `handled`, as `ScreenViewerStreamer.Valid` says. Then
      every one of them decoded, and the X buttons held down are the image of the SDL buttons held down
      after some first part of the events told; and once all of these are handled they are the image of the
      buttons really held down exactly if no event is mistold. */
  lemma InputThroughProxy(s: State, i: nat, v: View, ps: seq<Poll>, received: seq<Message>, rest: seq<byte>,
                          handled: seq<Message>, display: Display) returns (k: nat)
    requires Reachable(s) && i < |s.links| && s.links[i].one in s.conns && s.links[i].two in s.conns
    requires Sized(v) && Ordinary(Seen(ps)) && Ordinary(Told(ps))
    requires var viewer := s.conns[s.links[i].two];
             viewer.sent <= EncodeAll(viewer.requests) + EncodeAll(MessagesOf(InputsOf(v, Told(ps))))
    requires var streamer := s.conns[s.links[i].one]; streamer.out == EncodeAll(streamer.replies + received) + rest
    requires AllFit(received) && handled <= received
    ensures k <= |Told(ps)| && Ordinary(Told(ps)[..k]) && handled == MessagesOf(InputsOf(v, Told(ps)[..k]))
    ensures Replayed(handled, display).Some? && Held(Replayed(handled, display).value) == Image(SdlHeld(Told(ps)[..k]))
    ensures handled == MessagesOf(InputsOf(v, Told(ps))) ==>
              (Held(Replayed(handled, display).value) == Image(SdlHeld(Seen(ps))) <==>
                 forall j :: 0 <= j < |ps| ==> !Mistold(ps, j))
  {
    hide Reachable, Inv, LinksOk, Exclusive, Ended, EncodeAll, Held, Image, SdlHeld, InputsOf, MessagesOf, Replayed,
         Events, Mistold;
    var es := Told(ps);
    ReachableInv(s);
    InvParts(s);
    LinkAt(s, i);
    var l := s.links[i];
    var streamer, viewer := s.conns[l.one], s.conns[l.two];
    var later := EncodeAll(MessagesOf(InputsOf(v, es)));
    EncodeAllConcat(streamer.replies, received);
    var input := Past(viewer)[..l.toOne];
    PrefixOfRest(viewer.sent, EncodeAll(viewer.requests), later, l.toOne);
    SameRest(EncodeAll(streamer.replies), input, EncodeAll(received), rest);
    k := InputPipeline(v, es, input, received, rest, handled, display);
    HeldAfterPolling(v, ps, display);
  }

  lemma SameRest(a: seq<byte>, b: seq<byte>, c: seq<byte>, d: seq<byte>)
    requires a + b == a + c + d
    ensures b == c + d
  {
    assert b == (a + b)[|a|..];
    assert c + d == (a + c + d)[|a|..];
  }
}
