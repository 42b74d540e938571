/** What a bridge does to the two byte streams it joins, as a step system: each direction is a pipe
    that moves any 1 to 1,000,000 bytes at a time, in any interleaving with the other direction and
    with the arrival of bytes (include/Bridge.hpp). */
module Relays {
  import opened Messages
  import opened Framing

  const MAX_DATA_LENGTH := 1000000

  /** One direction: `source` is all input since the bridge took over, `taken` of it has been read,
      `sink` has been written. `live` means that its read is armed. */
  datatype Pipe = Pipe(source: seq<byte>, taken: nat, sink: seq<byte>, live: bool)

  const FRESH := Pipe([], 0, [], true)

  datatype Move =
    | Arrive(bytes: seq<byte>)    // the peer sends
    | Relay(n: nat)               // one handler run: n bytes read and written on, read armed again
    | Fail(n: nat, written: nat)  // n bytes read, the write fails after some of them; 0, 0 when the read fails

  predicate CanMove(p: Pipe, m: Move) {
    match m
    case Arrive(_) => true
    case Relay(n) => p.live && 1 <= n <= MAX_DATA_LENGTH && p.taken + n <= |p.source|
    case Fail(n, written) => p.live && written <= n <= MAX_DATA_LENGTH && p.taken + n <= |p.source|
  }

  function Apply(p: Pipe, m: Move): Pipe
    requires CanMove(p, m)
  {
    match m
    case Arrive(bytes) => p.(source := p.source + bytes)
    case Relay(n) => p.(taken := p.taken + n, sink := p.sink + p.source[p.taken..p.taken + n])
    case Fail(n, written) =>
      p.(taken := p.taken + n, sink := p.sink + p.source[p.taken..p.taken + written], live := false)
  }

  predicate CanRun(p: Pipe, ms: seq<Move>)
    decreases |ms|
  {
    ms != [] ==> CanMove(p, ms[0]) && CanRun(Apply(p, ms[0]), ms[1..])
  }

  function Run(p: Pipe, ms: seq<Move>): Pipe
    requires CanRun(p, ms)
    decreases |ms|
  {
    if ms == [] then p else Run(Apply(p, ms[0]), ms[1..])
  }

  /** Nothing invented, lost, reordered or duplicated: the output is the beginning of the input, and
      while the direction lives it is all that was read. */
  ghost predicate Faithful(p: Pipe) {
    p.sink <= p.source && |p.sink| <= p.taken <= |p.source| && (p.live ==> |p.sink| == p.taken)
  }

  lemma MoveKeepsFaithful(p: Pipe, m: Move)
    requires Faithful(p) && CanMove(p, m)
    ensures Faithful(Apply(p, m)) && p.source <= Apply(p, m).source
  {
    if !m.Arrive? {
      var k := if m.Relay? then m.n else m.written;
      assert p.sink == p.source[..p.taken];
      assert p.sink + p.source[p.taken..p.taken + k] == p.source[..p.taken + k];
    }
  }

  lemma {:induction false} RunKeepsFaithful(p: Pipe, ms: seq<Move>)
    requires Faithful(p) && CanRun(p, ms)
    ensures Faithful(Run(p, ms)) && p.source <= Run(p, ms).source
    decreases |ms|
  {
    if ms != [] {
      MoveKeepsFaithful(p, ms[0]);
      RunKeepsFaithful(Apply(p, ms[0]), ms[1..]);
    }
  }

  // ---------------------------------------------------------------- how many handler runs

  function HandlerRuns(ms: seq<Move>): nat {
    if ms == [] then 0 else (if ms[0].Relay? then 1 else 0) + HandlerRuns(ms[1..])
  }

  lemma {:induction false} RelayedBounds(p: Pipe, ms: seq<Move>)
    requires CanRun(p, ms) && Run(p, ms).live
    ensures p.live && p.taken + HandlerRuns(ms) <= Run(p, ms).taken <= p.taken + MAX_DATA_LENGTH * HandlerRuns(ms)
    decreases |ms|
  {
    if ms != [] {
      RelayedBounds(Apply(p, ms[0]), ms[1..]);
    }
  }

  /** Relaying n bytes takes at least ceil(n / 1,000,000) and at most n handler runs. */
  lemma RelayedPerRun(p: Pipe, ms: seq<Move>)
    requires CanRun(p, ms) && Run(p, ms).live
    ensures var n := Run(p, ms).taken - p.taken;
            (n + 999_999) / 1_000_000 <= HandlerRuns(ms) <= n
  {
    RelayedBounds(p, ms);
  }

  function Undelivered(p: Pipe): int {
    |p.source| - p.taken
  }

  function Arrived(ms: seq<Move>): nat {
    if ms == [] then 0 else (if ms[0].Arrive? then |ms[0].bytes| else 0) + Arrived(ms[1..])
  }

  /** What is undelivered is a measure of the handler runs still possible: over any run of a live
      direction each handler run takes at least one byte off it, and nothing but arrivals adds to it. */
  lemma {:induction false} RelayMakesProgress(p: Pipe, ms: seq<Move>)
    requires Faithful(p) && CanRun(p, ms) && Run(p, ms).live
    ensures 0 <= Undelivered(Run(p, ms)) <= Undelivered(p) + Arrived(ms) - HandlerRuns(ms)
    decreases |ms|
  {
    if ms != [] {
      MoveKeepsFaithful(p, ms[0]);
      RelayMakesProgress(Apply(p, ms[0]), ms[1..]);
    }
  }

  // n / size, rounded up
  function Turns(n: int, size: nat): int
    requires size > 0
  {
    (n + size - 1) / size
  }

  /** Both bounds of `RelayedPerRun` are met: reading `size` bytes at a time, a live direction delivers
      everything that has arrived, in exactly the least number of runs for full buffers and in as many
      as there are bytes for single ones. */
  lemma {:induction false} Drain(p: Pipe, size: nat) returns (ms: seq<Move>)
    requires Faithful(p) && p.live && 1 <= size <= MAX_DATA_LENGTH
    ensures CanRun(p, ms) && Run(p, ms) == Pipe(p.source, |p.source|, p.source, true)
    ensures HandlerRuns(ms) == Turns(Undelivered(p), size) && Arrived(ms) == 0
    decreases |p.source| - p.taken
  {
    hide Turns;
    OneMore(|p.source| - p.taken, size);
    var left := |p.source| - p.taken;
    if left == 0 {
      ms := [];
    } else {
      var n := if left < size then left else size;
      MoveKeepsFaithful(p, Relay(n));
      var rest := Drain(Apply(p, Relay(n)), size);
      ms := [Relay(n)] + rest;
      assert ms[1..] == rest;
    }
  }

  lemma OneMore(left: nat, size: nat)
    requires size > 0
    ensures Turns(0, size) == 0
    ensures left > 0 ==> Turns(left, size) == 1 + Turns(if left < size then 0 else left - size, size)
  {
    QuotientIs(size - 1, size, 0, size - 1);
    if left > 0 { OneTurnMore(left, size); }
  }

  lemma OneTurnMore(left: nat, size: nat)
    requires left > 0 && size > 0
    ensures Turns(left, size) == 1 + Turns(if left < size then 0 else left - size, size)
  {
    var n := left + size - 1;
    assert n == size * (n / size) + n % size;
    if left < size {
      QuotientIs(n, size, 1, left - 1);
      QuotientIs(size - 1, size, 0, size - 1);
    } else {
      assert size * (n / size - 1) == size * (n / size) - size;
      QuotientIs(n - size, size, n / size - 1, n % size);
    }
  }

  // ---------------------------------------------------------------- both directions

  datatype Direction = Upstream | Downstream
  datatype Duplex = Duplex(up: Pipe, down: Pipe)
  datatype DuplexMove = DuplexMove(dir: Direction, move: Move)

  function Side(d: Duplex, dir: Direction): Pipe {
    if dir.Upstream? then d.up else d.down
  }

  function ApplyDuplex(d: Duplex, m: DuplexMove): Duplex
    requires CanMove(Side(d, m.dir), m.move)
  {
    if m.dir.Upstream? then d.(up := Apply(d.up, m.move)) else d.(down := Apply(d.down, m.move))
  }

  predicate CanRunDuplex(d: Duplex, ms: seq<DuplexMove>)
    decreases |ms|
  {
    ms != [] ==> CanMove(Side(d, ms[0].dir), ms[0].move) && CanRunDuplex(ApplyDuplex(d, ms[0]), ms[1..])
  }

  function RunDuplex(d: Duplex, ms: seq<DuplexMove>): Duplex
    requires CanRunDuplex(d, ms)
    decreases |ms|
  {
    if ms == [] then d else RunDuplex(ApplyDuplex(d, ms[0]), ms[1..])
  }

  function Project(ms: seq<DuplexMove>, dir: Direction): seq<Move> {
    if ms == [] then []
    else (if ms[0].dir == dir then [ms[0].move] else []) + Project(ms[1..], dir)
  }

  /** The directions never affect each other: what a direction becomes in any interleaving is what
      it becomes alone. */
  lemma {:induction false} DirectionsIndependent(d: Duplex, ms: seq<DuplexMove>, dir: Direction)
    requires CanRunDuplex(d, ms)
    ensures CanRun(Side(d, dir), Project(ms, dir))
    ensures Side(RunDuplex(d, ms), dir) == Run(Side(d, dir), Project(ms, dir))
    decreases |ms|
  {
    if ms != [] {
      DirectionsIndependent(ApplyDuplex(d, ms[0]), ms[1..], dir);
      if ms[0].dir == dir {
        assert Project(ms, dir)[1..] == Project(ms[1..], dir);
      } else {
        assert Project(ms, dir) == Project(ms[1..], dir);
      }
    }
  }

  // ---------------------------------------------------------------- messages end to end

  /** In every run of a bridge, however it cuts the bytes and interleaves the directions: if a peer
      sends the messages `sent` (as far as it got), the other peer has received a prefix of their
      frames, in order, with types and contents; and all of them once everything is relayed. */
  lemma EndToEnd(ms: seq<DuplexMove>, dir: Direction, sent: seq<Message>)
    requires CanRunDuplex(Duplex(FRESH, FRESH), ms)
    requires Side(RunDuplex(Duplex(FRESH, FRESH), ms), dir).source <= EncodeAll(ChunkAll(sent))
    ensures var p := Side(RunDuplex(Duplex(FRESH, FRESH), ms), dir);
            && ReadAll(p.sink).messages <= ChunkAll(sent)
            && (p.live && p.source == EncodeAll(ChunkAll(sent)) && Undelivered(p) == 0
                ==> ReadAll(p.sink) == Reading(ChunkAll(sent), []))
  {
    var p := Side(RunDuplex(Duplex(FRESH, FRESH), ms), dir);
    DirectionsIndependent(Duplex(FRESH, FRESH), ms, dir);
    RunKeepsFaithful(FRESH, Project(ms, dir));
    assert p.sink <= EncodeAll(ChunkAll(sent));
    SendThenRead(sent, p.sink);
  }
}
