/** The bridge itself: two streams, two buffers overwritten in place, two chains of handlers that
    re-arm themselves (include/Bridge.hpp). */
module Bridges {
  import opened Messages
  import opened Streams
  import opened Relays

  class Bridge {
    const peerOne: TlsStream
    const peerTwo: TlsStream
    const serverBuffer: array<byte>  // filled from peerOne
    const clientBuffer: array<byte>  // filled from peerTwo
    var upstreamArmed: bool          // a read on peerTwo is outstanding
    var downstreamArmed: bool        // a read on peerOne is outstanding

    // the two directions since the bridge took the streams over
    ghost var up: Pipe
    ghost var down: Pipe
    ghost const toOne: seq<byte>     // what had been written to each peer before
    ghost const toTwo: seq<byte>

    ghost predicate Valid()
      reads this, peerOne, peerTwo
    {
      && peerOne != peerTwo && serverBuffer != clientBuffer
      && serverBuffer.Length == clientBuffer.Length == MAX_DATA_LENGTH
      && Carries(up, peerTwo, peerOne, toOne) && Carries(down, peerOne, peerTwo, toTwo)
      && (upstreamArmed ==> up.live) && (downstreamArmed ==> down.live)
    }

    /** The pipe is what happened between the two streams, from one's input to the other's output. */
    static ghost predicate Carries(p: Pipe, from: TlsStream, to: TlsStream, before: seq<byte>)
      reads from, to
    {
      && Faithful(p)
      && from.inbound == p.source[p.taken..]
      && to.outbound == before + p.sink
    }

    constructor (peerOne: TlsStream, peerTwo: TlsStream)
      requires peerOne != peerTwo
      ensures Valid() && this.peerOne == peerOne && this.peerTwo == peerTwo
      ensures !upstreamArmed && !downstreamArmed && fresh(serverBuffer) && fresh(clientBuffer)
      ensures up == Pipe(peerTwo.inbound, 0, [], true) && down == Pipe(peerOne.inbound, 0, [], true)
      ensures toOne == peerOne.outbound && toTwo == peerTwo.outbound
    {
      this.peerOne, this.peerTwo := peerOne, peerTwo;
      serverBuffer := new byte[MAX_DATA_LENGTH];
      clientBuffer := new byte[MAX_DATA_LENGTH];
      upstreamArmed, downstreamArmed := false, false;
      up, down := Pipe(peerTwo.inbound, 0, [], true), Pipe(peerOne.inbound, 0, [], true);
      toOne, toTwo := peerOne.outbound, peerTwo.outbound;
    }

    /** Making a bridge out of two sockets that are moved into it. It throws when either peer is lost, and
        then both sockets are closed with the arguments they were moved to. */
    static method Join(peerOne: TlsStream, peerTwo: TlsStream) returns (bridge: Bridge?)
      requires peerOne != peerTwo
      modifies peerOne`open, peerOne`broken, peerTwo`open, peerTwo`broken
      ensures bridge != null ==>
                && fresh(bridge) && bridge.Valid() && bridge.peerOne == peerOne && bridge.peerTwo == peerTwo
                && !bridge.upstreamArmed && !bridge.downstreamArmed
                && bridge.up == Pipe(peerTwo.inbound, 0, [], true) && bridge.down == Pipe(peerOne.inbound, 0, [], true)
                && bridge.toOne == peerOne.outbound && bridge.toTwo == peerTwo.outbound
                && peerOne.open == old(peerOne.open) && peerTwo.open == old(peerTwo.open)
                && peerOne.broken == old(peerOne.broken) && peerTwo.broken == old(peerTwo.broken)
      ensures bridge == null ==> !peerOne.open && !peerTwo.open
      ensures bridge == null && old(peerOne.open) && old(peerTwo.open) ==> peerOne.broken || peerTwo.broken
    {
      var ok := peerOne.RemoteEndpoint();
      if ok { ok := peerTwo.RemoteEndpoint(); }
      if !ok {
        peerOne.open, peerTwo.open := false, false;
        return null;
      }
      bridge := new Bridge(peerOne, peerTwo);
    }

    method Start()
      requires Valid() && up.live && down.live
      modifies this`upstreamArmed, this`downstreamArmed
      ensures Valid() && upstreamArmed && downstreamArmed
    {
      upstreamArmed, downstreamArmed := true, true;
    }

    /** A read of `n` bytes from peerTwo completes: they overwrite the front of the client buffer,
        whatever longer read left the rest, and exactly they are written to peerOne. The other
        direction, its buffer included, is as before. */
    method UpstreamReadCompletes(n: nat) returns (threw: bool)
      requires Valid() && upstreamArmed && peerTwo.open
      requires 1 <= n <= MAX_DATA_LENGTH && n <= |peerTwo.inbound|
      modifies this`upstreamArmed, this`up, clientBuffer, peerTwo`inbound, peerTwo`open, peerOne`outbound,
               peerOne`broken, peerOne`open
      ensures Valid()
      ensures clientBuffer[..] == old(peerTwo.inbound)[..n] + old(clientBuffer[n..])
      ensures upstreamArmed ==> CanMove(old(up), Relay(n)) && up == Apply(old(up), Relay(n))
                                && peerOne.open == old(peerOne.open) && peerTwo.open && !threw
      ensures !upstreamArmed ==> exists k: nat :: CanMove(old(up), Fail(n, k)) && up == Apply(old(up), Fail(n, k))
      ensures !upstreamArmed ==> peerOne.Down() && (threw <==> peerOne.open || peerTwo.open)
    {
      upstreamArmed := false;
      var read := peerTwo.ReadExactly(clientBuffer, n);
      assert up.source[up.taken..][..n] == up.source[up.taken..up.taken + n];
      threw := HandleUpstreamRead(n);
    }

    method HandleUpstreamRead(n: nat) returns (threw: bool)
      requires peerOne != peerTwo && serverBuffer != clientBuffer
      requires serverBuffer.Length == clientBuffer.Length == MAX_DATA_LENGTH
      requires !upstreamArmed && up.live && (downstreamArmed ==> down.live)
      requires 1 <= n <= MAX_DATA_LENGTH && up.taken + n <= |up.source| && Faithful(up)
      requires clientBuffer[..n] == up.source[up.taken..up.taken + n]
      requires peerTwo.inbound == up.source[up.taken + n..] && peerOne.outbound == toOne + up.sink
      requires Carries(down, peerOne, peerTwo, toTwo)
      modifies this`upstreamArmed, this`up, peerTwo`open, peerOne`outbound, peerOne`broken, peerOne`open
      ensures Valid()
      ensures upstreamArmed ==> up == Apply(old(up), Relay(n))
                                && peerOne.open == old(peerOne.open) && peerTwo.open == old(peerTwo.open) && !threw
      ensures !upstreamArmed ==> exists k: nat :: CanMove(old(up), Fail(n, k)) && up == Apply(old(up), Fail(n, k))
      ensures !upstreamArmed ==> peerOne.Down() && (threw <==> peerOne.open || peerTwo.open)
    {
      var ok := peerOne.Write(clientBuffer[..n]);
      ghost var move := Written(up, n, toOne, peerOne.outbound, ok);
      up := Apply(up, move);
      if ok {
        upstreamArmed := true;
        threw := false;
      } else {
        threw := Close();
      }
    }

    /** A read from peerTwo fails: that direction never relays again. */
    method UpstreamReadFails() returns (threw: bool)
      requires Valid() && upstreamArmed
      modifies this`upstreamArmed, this`up, peerOne`open, peerOne`broken, peerTwo`open
      ensures Valid() && !upstreamArmed && CanMove(old(up), Fail(0, 0)) && up == Apply(old(up), Fail(0, 0))
      ensures (peerOne.open ==> peerOne.Down()) && (threw <==> peerOne.open || peerTwo.open)
    {
      upstreamArmed := false;
      MoveKeepsFaithful(up, Fail(0, 0));
      assert up.sink + up.source[up.taken..up.taken] == up.sink;
      up := Apply(up, Fail(0, 0));
      threw := Close();
    }

    /** The mirror image: from peerOne through the server buffer to peerTwo. */
    method DownstreamReadCompletes(n: nat) returns (threw: bool)
      requires Valid() && downstreamArmed && peerOne.open
      requires 1 <= n <= MAX_DATA_LENGTH && n <= |peerOne.inbound|
      modifies this`downstreamArmed, this`down, serverBuffer, peerOne`inbound, peerOne`open, peerOne`broken
      modifies peerTwo`outbound, peerTwo`broken, peerTwo`open
      ensures Valid()
      ensures serverBuffer[..] == old(peerOne.inbound)[..n] + old(serverBuffer[n..])
      ensures downstreamArmed ==> CanMove(old(down), Relay(n)) && down == Apply(old(down), Relay(n))
                                  && peerTwo.open == old(peerTwo.open) && peerOne.open && !threw
      ensures !downstreamArmed ==> exists k: nat ::
                CanMove(old(down), Fail(n, k)) && down == Apply(old(down), Fail(n, k))
      ensures !downstreamArmed ==> peerTwo.Down() && (threw <==> peerOne.open || peerTwo.open)
    {
      downstreamArmed := false;
      var read := peerOne.ReadExactly(serverBuffer, n);
      assert down.source[down.taken..][..n] == down.source[down.taken..down.taken + n];
      threw := HandleDownstreamRead(n);
    }

    method HandleDownstreamRead(n: nat) returns (threw: bool)
      requires peerOne != peerTwo && serverBuffer != clientBuffer
      requires serverBuffer.Length == clientBuffer.Length == MAX_DATA_LENGTH
      requires !downstreamArmed && down.live && (upstreamArmed ==> up.live)
      requires 1 <= n <= MAX_DATA_LENGTH && down.taken + n <= |down.source| && Faithful(down)
      requires serverBuffer[..n] == down.source[down.taken..down.taken + n]
      requires peerOne.inbound == down.source[down.taken + n..] && peerTwo.outbound == toTwo + down.sink
      requires Carries(up, peerTwo, peerOne, toOne)
      modifies this`downstreamArmed, this`down, peerOne`open, peerOne`broken
      modifies peerTwo`outbound, peerTwo`broken, peerTwo`open
      ensures Valid()
      ensures downstreamArmed ==> down == Apply(old(down), Relay(n))
                                  && peerTwo.open == old(peerTwo.open) && peerOne.open == old(peerOne.open) && !threw
      ensures !downstreamArmed ==> exists k: nat ::
                CanMove(old(down), Fail(n, k)) && down == Apply(old(down), Fail(n, k))
      ensures !downstreamArmed ==> peerTwo.Down() && (threw <==> peerOne.open || peerTwo.open)
    {
      var ok := peerTwo.Write(serverBuffer[..n]);
      ghost var move := Written(down, n, toTwo, peerTwo.outbound, ok);
      down := Apply(down, move);
      if ok {
        downstreamArmed := true;
        threw := false;
      } else {
        threw := Close();
      }
    }

    method DownstreamReadFails() returns (threw: bool)
      requires Valid() && downstreamArmed
      modifies this`downstreamArmed, this`down, peerOne`open, peerOne`broken, peerTwo`open
      ensures Valid() && !downstreamArmed && CanMove(old(down), Fail(0, 0)) && down == Apply(old(down), Fail(0, 0))
      ensures (peerOne.open ==> peerOne.Down()) && (threw <==> peerOne.open || peerTwo.open)
    {
      downstreamArmed := false;
      MoveKeepsFaithful(down, Fail(0, 0));
      assert down.sink + down.source[down.taken..down.taken] == down.sink;
      down := Apply(down, Fail(0, 0));
      threw := Close();
    }

    /** Closing shuts peerOne down in both of its branches, as written. It never closes peerTwo:
        both ends are closed afterwards exactly when peerTwo already was and peerOne is now, and
        the call throws whenever peerTwo was still open. */
    method Close() returns (threw: bool)
      requires peerOne != peerTwo
      modifies peerOne`open, peerOne`broken, peerTwo`open
      ensures peerTwo.open == old(peerTwo.open)
      ensures old(peerTwo.open) ==> threw
      ensures !threw ==> !peerOne.open && !peerTwo.open
      ensures peerOne.open ==> old(peerOne.open) && threw && peerOne.Down()
      ensures threw <==> peerOne.open || peerTwo.open
    {
      if peerOne.open {
        var ok := peerOne.ShutdownAndClose();
        if !ok { return true; }
      }
      if peerTwo.open {
        // It is peerOne that is shut down here as well. It is closed by now, so that throws, and
        // the line that would close peerTwo is never reached.
        var ok := peerOne.ShutdownAndClose();
        assert !ok;
        return true;
      }
      threw := false;
    }
  }
  /** What a write of `n` bytes did, in terms of the pipe. */
  lemma Written(p: Pipe, n: nat, before: seq<byte>, out: seq<byte>, ok: bool) returns (m: Move)
    requires Faithful(p) && p.live && 1 <= n <= MAX_DATA_LENGTH && p.taken + n <= |p.source|
    requires before + p.sink <= out <= before + p.sink + p.source[p.taken..p.taken + n]
    requires ok ==> out == before + p.sink + p.source[p.taken..p.taken + n]
    ensures CanMove(p, m) && Faithful(Apply(p, m)) && out == before + Apply(p, m).sink
    ensures ok ==> m == Relay(n)
    ensures !ok ==> m.Fail? && m.n == n
  {
    var k := |out| - |before| - |p.sink|;
    m := if ok then Relay(n) else Fail(n, k);
    MoveKeepsFaithful(p, m);
    var chunk := p.source[p.taken..p.taken + n];
    assert chunk[..k] == p.source[p.taken..p.taken + k];
    assert out == before + p.sink + chunk[..k];
    assert out == before + (p.sink + chunk[..k]);
  }
}
