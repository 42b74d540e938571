/** The registry of waiting streamers: a map under a lock, and the history of what happened to it
    (src/ServerSessionsManager.cpp). */
module Registry {
  import opened Messages
  import opened Streams

  type Id = seq<byte>

  // every registration goes under the identifier "test"
  const SESSION_ID: Id := [116, 101, 115, 116]

  datatype Entry<+T> = Entry(session: T, timePoint: int)

  datatype Event<+T> =
    | Registered(id: Id, session: T, time: int)
    | Claimed(id: Id)   // a find that succeeded
    | Expired(id: Id)   // erased by a sweep
    | Cleared           // reset

  // ---------------------------------------------------------------- histories

  /** Whether an event ends the stay of whatever was registered under `id`. */
  predicate Touches<T>(e: Event<T>, id: Id) {
    e.Cleared? || e.id == id
  }

  function Front<T>(s: seq<T>): seq<T>
    requires s != []
  {
    s[..|s| - 1]
  }

  function Last<T>(s: seq<T>): T
    requires s != []
  {
    s[|s| - 1]
  }

  /** Which registration (by its place in the history) is present under which identifier. */
  function Replay<T>(log: seq<Event<T>>): (present: map<Id, nat>)
    ensures forall id :: id in present ==>
              present[id] < |log| && log[present[id]].Registered? && log[present[id]].id == id
  {
    if log == [] then map[]
    else
      var before := Replay(Front(log));
      assert forall i: nat :: i < |log| - 1 ==> log[i] == Front(log)[i];
      match Last(log)
      case Registered(id, _, _) => before[id := |log| - 1]
      case Claimed(id) => before - {id}
      case Expired(id) => before - {id}
      case Cleared => map[]
  }

  /** Only what is present can be claimed or expire. */
  predicate Lawful<T>(log: seq<Event<T>>) {
    log != [] ==>
      && Lawful(Front(log))
      && (Last(log).Claimed? || Last(log).Expired? ==> Last(log).id in Replay(Front(log)))
  }

  /** Independently of any map: registration `i` is the most recent one under `id` and has not been
      claimed, expired or cleared since. */
  ghost predicate IsLatest<T>(log: seq<Event<T>>, id: Id, i: nat) {
    && i < |log| && log[i].Registered? && log[i].id == id
    && forall j :: i < j < |log| ==> !Touches(log[j], id)
  }

  lemma {:induction false} ReplayIsLatest<T>(log: seq<Event<T>>, id: Id)
    ensures forall i: nat :: id in Replay(log) && Replay(log)[id] == i <==> IsLatest(log, id, i)
    decreases |log|
  {
    if log != [] {
      var front := Front(log);
      ReplayIsLatest(front, id);
      forall i: nat ensures id in Replay(log) && Replay(log)[id] == i <==> IsLatest(log, id, i) {
        if i < |front| {
          assert log[i] == front[i];
          assert IsLatest(log, id, i) <==> IsLatest(front, id, i) && !Touches(Last(log), id) by {
            if IsLatest(front, id, i) && !Touches(Last(log), id) {
              forall j | i < j < |log| ensures !Touches(log[j], id) {
                if j < |front| { assert log[j] == front[j]; }
              }
            }
            if IsLatest(log, id, i) {
              forall j | i < j < |front| ensures !Touches(front[j], id) {
                assert log[j] == front[j];
              }
              assert log[|log| - 1] == Last(log);
            }
          }
        }
      }
    }
  }

  /** What became of a registration: decided by the first event after it that touches it. */
  datatype Fate = Present | Evicted | Extracted | TimedOut | Reset

  function Cause<T>(e: Event<T>): (f: Fate)
    ensures f != Present
  {
    match e
    case Registered(_, _, _) => Evicted
    case Claimed(_) => Extracted
    case Expired(_) => TimedOut
    case Cleared => Reset
  }

  function FateOf<T>(log: seq<Event<T>>, i: nat): Fate
    requires i < |log| && log[i].Registered?
    decreases |log|
  {
    if i == |log| - 1 then Present
    else
      var before := FateOf(Front(log), i);
      if before.Present? && Touches(Last(log), log[i].id) then Cause(Last(log)) else before
  }

  /** A registration is present exactly while it is the latest survivor of its identifier. */
  lemma {:induction false} PresentIsLatest<T>(log: seq<Event<T>>, i: nat)
    requires i < |log| && log[i].Registered?
    ensures FateOf(log, i) == Present <==> IsLatest(log, log[i].id, i)
    decreases |log|
  {
    if i < |log| - 1 {
      var front := Front(log);
      PresentIsLatest(front, i);
      ReplayIsLatest(log, log[i].id);
      ReplayIsLatest(front, log[i].id);
    }
  }

  function WithFate<T>(log: seq<Event<T>>, f: Fate): set<nat> {
    set i: nat | i < |log| && log[i].Registered? && FateOf(log, i) == f
  }

  lemma PresentSet<T>(log: seq<Event<T>>)
    ensures WithFate(log, Present) == Replay(log).Values
    ensures |WithFate(log, Present)| == |Replay(log)|
  {
    var present := Replay(log);
    forall i: nat ensures i in WithFate(log, Present) <==> i in present.Values {
      if i < |log| && log[i].Registered? {
        PresentIsLatest(log, i);
        ReplayIsLatest(log, log[i].id);
        if i in WithFate(log, Present) { assert log[i].id in present.Keys; }
      }
    }
    InjectiveValues(present);
  }

  lemma {:induction false} InjectiveValues<K, V>(m: map<K, V>)
    requires forall a, b :: a in m && b in m && m[a] == m[b] ==> a == b
    ensures |m.Values| == |m|
    decreases |m|
  {
    if m == map[] {
      assert m.Values == {};
    } else {
      var k :| k in m;
      var rest := m - {k};
      InjectiveValues(rest);
      assert |rest| == |m| - 1 by { assert rest.Keys == m.Keys - {k}; }
      assert m.Values == rest.Values + {m[k]} by {
        forall v | v in m.Values ensures v in rest.Values + {m[k]} {
          var a :| a in m && m[a] == v;
          if a != k { assert a in rest && rest[a] == v; }
        }
      }
      assert m[k] !in rest.Values;
    }
  }

  // ---------------------------------------------------------------- conservation

  function Tally<T>(log: seq<Event<T>>, f: Fate): nat {
    if log == [] then 0
    else Tally(Front(log), f) + (if Cause(Last(log)) == f then 1 else 0)
  }

  /** Appending an event changes the fate of what is present and touched by it, and of nothing else. */
  lemma FateStep<T>(log: seq<Event<T>>, e: Event<T>, i: nat)
    requires i < |log| && log[i].Registered?
    ensures (log + [e])[i] == log[i]
    ensures FateOf(log + [e], i) ==
            if FateOf(log, i) == Present && Touches(e, log[i].id) then Cause(e) else FateOf(log, i)
  {
    assert Front(log + [e]) == log && Last(log + [e]) == e;
  }

  /** A fate once decided stays, whatever happens later. */
  lemma {:induction false} FateKept<T>(log: seq<Event<T>>, later: seq<Event<T>>, i: nat)
    requires log <= later && i < |log| && log[i].Registered? && FateOf(log, i) != Present
    ensures later[i] == log[i] && FateOf(later, i) == FateOf(log, i)
    decreases |later|
  {
    if |later| > |log| {
      FateKept(log, Front(later), i);
    } else {
      assert later == log;
    }
  }

  /** A claim extracts, and an expiration times out, exactly the latest surviving registration of its
      identifier. */
  lemma RemovalStep<T>(log: seq<Event<T>>, e: Event<T>)
    requires (e.Claimed? || e.Expired?) && e.id in Replay(log)
    ensures WithFate(log + [e], Cause(e)) == WithFate(log, Cause(e)) + {Replay(log)[e.id]}
    ensures Replay(log)[e.id] !in WithFate(log, Cause(e)) && IsLatest(log, e.id, Replay(log)[e.id])
  {
    var latest := Replay(log)[e.id];
    ReplayIsLatest(log, e.id);
    PresentIsLatest(log, latest);
    forall i: nat ensures i in WithFate(log + [e], Cause(e)) <==> i in WithFate(log, Cause(e)) + {latest} {
      if i < |log| && log[i].Registered? {
        FateStep(log, e, i);
        PresentIsLatest(log, i);
      } else if i < |log| {
        assert (log + [e])[i] == log[i];
      }
    }
  }

  lemma UnrelatedStep<T>(log: seq<Event<T>>, e: Event<T>, f: Fate)
    requires f != Present && Cause(e) != f
    ensures WithFate(log + [e], f) == WithFate(log, f)
  {
    forall i: nat ensures i in WithFate(log + [e], f) <==> i in WithFate(log, f) {
      if i < |log| && log[i].Registered? {
        FateStep(log, e, i);
      } else if i < |log| {
        assert (log + [e])[i] == log[i];
      }
    }
  }

  /** Successful finds and expirations match extracted and timed-out registrations one to one. */
  lemma {:induction false} RemovalsCounted<T>(log: seq<Event<T>>, f: Fate)
    requires Lawful(log) && (f == Extracted || f == TimedOut)
    ensures |WithFate(log, f)| == Tally(log, f)
    decreases |log|
  {
    if log == [] {
      assert WithFate(log, f) == {};
    } else {
      var front, e := Front(log), Last(log);
      assert log == front + [e];
      RemovalsCounted(front, f);
      if Cause(e) == f { RemovalStep(front, e); } else { UnrelatedStep(front, e, f); }
    }
  }

  function Registrations<T>(log: seq<Event<T>>): set<nat> {
    set i: nat | i < |log| && log[i].Registered?
  }

  lemma DisjointSizes<T>(all: set<T>, a: set<T>, b: set<T>, c: set<T>, d: set<T>, e: set<T>)
    requires all == a + b + c + d + e
    requires a !! b !! c !! d !! e
    ensures |all| == |a| + |b| + |c| + |d| + |e|
  {
    assert |a + b| == |a| + |b|;
    assert |a + b + c| == |a + b| + |c|;
    assert |a + b + c + d| == |a + b + c| + |d|;
  }

  lemma FatesPartition<T>(log: seq<Event<T>>)
    ensures Registrations(log) == WithFate(log, Present) + WithFate(log, Evicted) + WithFate(log, Extracted)
                                  + WithFate(log, TimedOut) + WithFate(log, Reset)
    ensures WithFate(log, Present) !! WithFate(log, Evicted) !! WithFate(log, Extracted)
            !! WithFate(log, TimedOut) !! WithFate(log, Reset)
  {
  }

  /** Every registration is present, evicted by a later one, claimed, expired or cleared, and only
      one of these; claims and expirations are counted by what was claimed and what expired. */
  lemma Conservation<T>(log: seq<Event<T>>)
    requires Lawful(log)
    ensures |Registrations(log)| == |Replay(log)| + |WithFate(log, Evicted)| + Tally(log, Extracted)
                                    + Tally(log, TimedOut) + |WithFate(log, Reset)|
    ensures WithFate(log, Extracted) !! WithFate(log, TimedOut)
  {
    PresentSet(log);
    RemovalsCounted(log, Extracted);
    RemovalsCounted(log, TimedOut);
    FatesPartition(log);
    DisjointSizes(Registrations(log), WithFate(log, Present), WithFate(log, Evicted),
                  WithFate(log, Extracted), WithFate(log, TimedOut), WithFate(log, Reset));
  }

  /** While everything registers under one identifier there is at most one entry. */
  lemma {:induction false} AtMostOneEntry<T>(log: seq<Event<T>>, id: Id)
    requires forall e :: e in log && e.Registered? ==> e.id == id
    ensures Replay(log).Keys <= {id} && |Replay(log)| <= 1
    decreases |log|
  {
    if log != [] {
      AtMostOneEntry(Front(log), id);
      assert Replay(log).Keys <= {id};
    }
    assert |Replay(log).Keys| <= |{id}| by {
      if id !in Replay(log) { assert Replay(log).Keys == {}; } else { assert Replay(log).Keys == {id}; }
    }
  }

  // ---------------------------------------------------------------- the map and its history

  /** The map holds exactly the latest surviving registrations. */
  ghost predicate Matches<T>(sessions: map<Id, Entry<T>>, log: seq<Event<T>>) {
    && Lawful(log)
    && sessions.Keys == Replay(log).Keys
    && forall id :: id in sessions ==>
         log[Replay(log)[id]] == Registered(id, sessions[id].session, sessions[id].timePoint)
  }

  lemma MatchesRegister<T>(sessions: map<Id, Entry<T>>, log: seq<Event<T>>, id: Id, session: T, time: int)
    requires Matches(sessions, log)
    ensures Matches(sessions[id := Entry(session, time)], log + [Registered(id, session, time)])
  {
    assert Front(log + [Registered(id, session, time)]) == log;
  }

  lemma MatchesRemove<T>(sessions: map<Id, Entry<T>>, log: seq<Event<T>>, e: Event<T>)
    requires Matches(sessions, log) && (e.Claimed? || e.Expired?) && e.id in sessions
    ensures Matches(sessions - {e.id}, log + [e])
  {
    assert Front(log + [e]) == log;
    assert (sessions - {e.id}).Keys == Replay(log + [e]).Keys;
  }

  lemma MatchesClear<T>(sessions: map<Id, Entry<T>>, log: seq<Event<T>>)
    requires Matches(sessions, log)
    ensures Matches(map[], log + [Cleared])
  {
    assert Front(log + [Cleared]) == log;
  }

  /** A sweep in progress: what is `ahead` has not been looked at. */
  ghost predicate Swept<T>(before: map<Id, Entry<T>>, after: map<Id, Entry<T>>, ahead: set<Id>, timeout: int,
                                  start: int, now: int) {
    && after.Keys <= before.Keys
    && (forall id :: id in after ==> after[id] == before[id] && (id in ahead || after[id].timePoint >= start - timeout))
    && (forall id :: id in before && id !in after ==> before[id].timePoint < now - timeout)
  }

  /** What one sweep may do, given when it started and ended: survivors are unchanged and were young
      enough at the start, everything removed was too old at the end. */
  ghost predicate SweepOutcome<T>(before: map<Id, Entry<T>>, after: map<Id, Entry<T>>, timeout: int, start: int,
                                         end: int) {
    Swept(before, after, {}, timeout, start, end)
  }

  lemma SweptStep<T>(before: map<Id, Entry<T>>, left: map<Id, Entry<T>>, next: map<Id, Entry<T>>, ahead: set<Id>,
                     id: Id, timeout: int, start: int, last: int, now: int)
    requires Swept(before, left, ahead, timeout, start, last) && id in ahead && ahead <= left.Keys
             && start <= last <= now
    requires next == if now - left[id].timePoint > timeout then left - {id} else left
    ensures ahead - {id} <= next.Keys && Swept(before, next, ahead - {id}, timeout, start, now)
  {
  }

  /** The walk has been at each of `visited` once and all of `ahead` is still to come. */
  ghost predicate Visiting(visited: seq<Id>, ahead: set<Id>, keys: set<Id>) {
    && (forall i, j :: 0 <= i < j < |visited| ==> visited[i] != visited[j])
    && (forall id :: id in visited ==> id !in ahead)
    && (forall id :: id in keys <==> id in visited || id in ahead)
  }

  /** Every visit had its own reading of the clock, and what it found too old then, and nothing else, is gone. */
  ghost predicate Judged<T>(visited: seq<Id>, readings: seq<int>, before: map<Id, Entry<T>>, after: map<Id, Entry<T>>,
      timeout: int) {
    && |readings| == |visited|
    && forall k :: 0 <= k < |visited| ==>
         && visited[k] in before
         && (visited[k] !in after <==> readings[k] - before[visited[k]].timePoint > timeout)
  }

  lemma JudgedStep<T>(visited: seq<Id>, readings: seq<int>, before: map<Id, Entry<T>>, left: map<Id, Entry<T>>,
                      next: map<Id, Entry<T>>, ahead: set<Id>, id: Id, timeout: int, now: int)
    requires Judged(visited, readings, before, left, timeout) && Visiting(visited, ahead, before.Keys) && id in ahead
    requires id in left && left[id] == before[id] && id in before
    requires next == if now - left[id].timePoint > timeout then left - {id} else left
    ensures Judged(visited + [id], readings + [now], before, next, timeout)
  {
    forall k | 0 <= k < |visited| ensures visited[k] != id {
      assert visited[k] in visited;
    }
  }

  lemma Beginning<T>(sessions: map<Id, Entry<T>>, log: seq<Event<T>>, readings: seq<int>, timeout: int, now: int)
    ensures Visiting([], sessions.Keys, sessions.Keys) && OnlyExpirations(log, log)
    ensures Judged([], readings[|readings|..], sessions, sessions, timeout)
  {
  }

  lemma VisitingStep(visited: seq<Id>, ahead: set<Id>, keys: set<Id>, id: Id)
    requires Visiting(visited, ahead, keys) && id in ahead
    ensures Visiting(visited + [id], ahead - {id}, keys)
  {
    assert id !in visited;
  }

  ghost predicate OnlyExpirations<T>(before: seq<Event<T>>, after: seq<Event<T>>) {
    before <= after && forall j :: |before| <= j < |after| ==> after[j].Expired?
  }

  lemma ExpirationsGrow<T>(before: seq<Event<T>>, log: seq<Event<T>>, after: seq<Event<T>>)
    requires OnlyExpirations(before, log) && OnlyExpirations(log, after)
    ensures OnlyExpirations(before, after)
  {
    forall j | |before| <= j < |after| ensures after[j].Expired? {
      if j < |log| { assert after[j] == log[j]; }
    }
  }

  class ServerSessionsManager<T(==)> {
    var sessions: map<Id, Entry<T>>
    var cleaning: bool  // the cleaner thread is running
    ghost var log: seq<Event<T>>

    ghost predicate Valid()
      reads this
    {
      Matches(sessions, log)
    }

    constructor ()
      ensures Valid() && sessions == map[] && log == [] && !cleaning
    {
      sessions, log, cleaning := map[], [], false;
    }

    /** Starts the cleaner; one that was running is stopped and replaced. */
    method InitCleanerThread()
      modifies this`cleaning
      ensures cleaning
    {
      cleaning := true;
    }

    /** Replaces whatever was registered. */
    method RegisterStreamer(session: T, clock: Clock) returns (id: Id)
      requires Valid()
      modifies this, clock
      ensures Valid() && id == SESSION_ID && old(clock.time) <= clock.time
      ensures sessions == old(sessions)[SESSION_ID := Entry(session, clock.time)]
      ensures log == old(log) + [Registered(SESSION_ID, session, clock.time)]
    {
      id := SESSION_ID;
      if id in sessions {
        sessions := sessions - {id};
      }
      var now := clock.Now();
      assert sessions[id := Entry(session, now)] == old(sessions)[id := Entry(session, now)];
      sessions := sessions[id := Entry(session, now)];
      log := log + [Registered(id, session, now)];
      MatchesRegister(old(sessions), old(log), id, session, now);
    }

    /** The part of `createBridgeWithStreamer` that holds the lock: takes out the entry, if any. */
    method ExtractStreamer(code: Id) returns (node: Option<Entry<T>>)
      requires Valid()
      modifies this
      ensures Valid()
      ensures code in old(sessions) ==>
                node == Some(old(sessions)[code]) && sessions == old(sessions) - {code}
                && log == old(log) + [Claimed(code)]
      ensures code !in old(sessions) ==> node == None && sessions == old(sessions) && log == old(log)
    {
      if code in sessions {
        MatchesRemove(sessions, log, Claimed(code));
        node := Some(sessions[code]);
        sessions, log := sessions - {code}, log + [Claimed(code)];
      } else {
        node := None;
      }
    }

    /** The sweep: walks the map in some order, reads the clock afresh for every entry and erases
        while walking. Each key is visited once. */
    method TerminateTimeoutClients(timeout: int, clock: Clock) returns (ghost visited: seq<Id>)
      requires Valid()
      modifies this, clock
      ensures Valid() && old(clock.time) <= clock.time
      ensures SweepOutcome(old(sessions), sessions, timeout, old(clock.time), clock.time)
      ensures Visiting(visited, {}, old(sessions).Keys) && OnlyExpirations(old(log), log)
      ensures old(clock.readings) <= clock.readings
      ensures Judged(visited, clock.readings[|old(clock.readings)|..], old(sessions), sessions, timeout)
    {
      hide Matches, Visiting, OnlyExpirations, Judged;
      Beginning(sessions, log, clock.readings, timeout, clock.time);
      var ahead := sessions.Keys;
      visited := [];
      while ahead != {}
        invariant Valid() && old(clock.time) <= clock.time
        invariant ahead <= sessions.Keys && Swept(old(sessions), sessions, ahead, timeout, old(clock.time), clock.time)
        invariant Visiting(visited, ahead, old(sessions).Keys)
        invariant OnlyExpirations(old(log), log)
        invariant old(clock.readings) <= clock.readings
        invariant Judged(visited, clock.readings[|old(clock.readings)|..], old(sessions), sessions, timeout)
        decreases ahead
      {
        var id :| id in ahead;
        ghost var left, events, last, read := sessions, log, clock.time, clock.readings;
        EraseIfExpired(id, timeout, clock);
        assert clock.readings[|old(clock.readings)|..] == read[|old(clock.readings)|..] + [clock.time];
        JudgedStep(visited, read[|old(clock.readings)|..], old(sessions), left, sessions, ahead, id, timeout,
            clock.time);
        SweptStep(old(sessions), left, sessions, ahead, id, timeout, old(clock.time), last, clock.time);
        VisitingStep(visited, ahead, old(sessions).Keys, id);
        ExpirationsGrow(old(log), events, log);
        ahead, visited := ahead - {id}, visited + [id];
      }
    }

    method EraseIfExpired(id: Id, timeout: int, clock: Clock)
      requires Valid() && id in sessions
      modifies this, clock
      ensures Valid() && old(clock.time) <= clock.time
      ensures sessions ==
              if clock.time - old(sessions)[id].timePoint > timeout then old(sessions) - {id} else old(sessions)
      ensures OnlyExpirations(old(log), log) && clock.readings == old(clock.readings) + [clock.time]
    {
      var now := clock.Now();
      if now - sessions[id].timePoint > timeout {
        MatchesRemove(sessions, log, Expired(id));
        sessions, log := sessions - {id}, log + [Expired(id)];
      }
    }

    method CurrentSessions() returns (n: nat)
      requires Valid()
      ensures n == |WithFate(log, Present)|
    {
      PresentSet(log);
      n := |sessions|;
      assert |sessions.Keys| == |Replay(log).Keys|;
    }

    /** Clears the map and stops the cleaner, if there is one. */
    method Reset()
      requires Valid()
      modifies this
      ensures Valid() && sessions == map[] && log == old(log) + [Cleared] && !cleaning
    {
      MatchesClear(sessions, log);
      sessions, log := map[], log + [Cleared];
      if cleaning { cleaning := false; }
    }
  }
}
