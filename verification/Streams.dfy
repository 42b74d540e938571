/** The encrypted stream under a socket, as the process holding it sees it: a reliable FIFO byte
    channel that may fail, and a clock that never goes back. */
module Streams {
  import opened Messages

  class TlsStream {
    var inbound: seq<byte>   // what the peer has sent (or will send before it ends the stream), still unread
    var outbound: seq<byte>  // everything that reached the wire from this end
    var open: bool           // lowest_layer().is_open()
    var broken: bool         // the peer is gone: writes fail from now on

    constructor (inbound: seq<byte>)
      ensures this.inbound == inbound && outbound == [] && open && !broken
    {
      this.inbound, outbound, open, broken := inbound, [], true, false;
    }

    /** Nothing written from now on reaches the peer. */
    ghost predicate Down()
      reads this
    {
      !open || broken
    }

    /** `asio::write`: all of `data`, or an error after some part of it. */
    method Write(data: seq<byte>) returns (ok: bool)
      modifies this`outbound, this`broken
      ensures ok ==> open && !old(broken) && !broken && outbound == old(outbound) + data
      ensures !ok ==> (open ==> broken) && old(outbound) <= outbound <= old(outbound) + data
      ensures !ok && (old(broken) || !open) ==> outbound == old(outbound)
    {
      ok := open && !broken;
      if ok {
        var fails: bool := *;
        if fails {
          var k: nat :| k <= |data|;
          outbound, broken, ok := outbound + data[..k], true, false;
        } else {
          outbound := outbound + data;
        }
      }
    }

    /** `asio::read` with `transfer_exactly(n)` into the first `n` places of `buffer`. */
    method ReadExactly(buffer: array<byte>, n: nat) returns (ok: bool)
      requires n <= buffer.Length
      modifies this`inbound, buffer
      ensures ok == (open && n <= |old(inbound)|)
      ensures ok ==> buffer[..] == old(inbound)[..n] + old(buffer[n..]) && inbound == old(inbound)[n..]
      ensures !ok ==> buffer[n..] == old(buffer[n..]) && inbound == if open then [] else old(inbound)
    {
      ok := open && n <= |inbound|;
      var k := if !open then 0 else if ok then n else |inbound|;
      forall i | 0 <= i < k {
        buffer[i] := inbound[i];
      }
      inbound := inbound[k..];
    }

    /** `remote_endpoint()`: throws when the connection is lost. */
    method RemoteEndpoint() returns (ok: bool)
      modifies this`broken
      ensures ok ==> broken == old(broken)
      ensures !ok ==> Down()
    {
      var lost: bool := *;
      ok := open && !lost;
      if !ok { broken := true; }
    }

    /** `shutdown` followed by `close`. Shutting down a socket that is closed, or no longer
        connected, throws before anything is closed. */
    method ShutdownAndClose() returns (ok: bool)
      modifies this`open, this`broken
      ensures ok ==> old(open) && !open && broken == old(broken)
      ensures !ok ==> open == old(open) && Down()
    {
      var connected: bool := *;
      ok := open && connected;
      if ok { open := false; } else { broken := true; }
    }
  }

  class Clock {
    var time: int
    ghost var readings: seq<int>  // what it has been read to show, one reading after the other

    method Now() returns (now: int)
      modifies this
      ensures old(time) <= time == now && readings == old(readings) + [now]
    {
      var elapsed: int :| 0 <= elapsed;
      time := time + elapsed;
      now := time;
      readings := readings + [now];
    }
  }
}
