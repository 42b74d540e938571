/** The cleaner's thread and `reset`, which stops it: who waits for whom (src/ServerSessionsManager.cpp).
    `reset` requests the stop and joins the thread while it holds the lock that the thread takes for every
    sweep. */
module Cleaner {

  /** Where the cleaner's thread is: about to ask whether it is to stop, about to take the lock, sweeping with
      the lock, waiting for the next interval, or at its end (or never started). */
  datatype CleanerAt = Checking | BeforeLock | Sweeping | Sleeping | Ended
  /** Where the thread in `reset` is. It holds the lock while it clears and while it joins. */
  datatype ResetAt = Outside | WantsLock | Clearing | Joining | Returned

  datatype Threads = Threads(cleaner: CleanerAt, reset: ResetAt, stop: bool)

  datatype Turn = CleanersTurn | ResetsTurn

  predicate ResetHolds(t: Threads) {
    t.reset.Clearing? || t.reset.Joining?
  }

  predicate CanStep(t: Threads, who: Turn) {
    match who
    case CleanersTurn => !t.cleaner.Ended? && (t.cleaner.BeforeLock? ==> !ResetHolds(t))
    case ResetsTurn =>
      && !t.reset.Returned? && (t.reset.WantsLock? ==> !t.cleaner.Sweeping?) && (t.reset.Joining? ==> t.cleaner.Ended?)
  }

  function Step(t: Threads, who: Turn): Threads
    requires CanStep(t, who)
  {
    match who
    case CleanersTurn =>
      (match t.cleaner
       case Checking => t.(cleaner := if t.stop then Ended else BeforeLock)
       case BeforeLock => t.(cleaner := Sweeping)
       case Sweeping => t.(cleaner := Sleeping)
       case _ => t.(cleaner := Checking))  // the interval is over, or a stop was requested
    case ResetsTurn =>
      (match t.reset
       case Outside => t.(reset := WantsLock)
       case WantsLock => t.(reset := Clearing)
       case Clearing => t.(reset := Joining, stop := true)
       case _ => t.(reset := Returned))
  }

  predicate CanRun(t: Threads, turns: seq<Turn>)
    decreases |turns|
  {
    turns != [] ==> CanStep(t, turns[0]) && CanRun(Step(t, turns[0]), turns[1..])
  }

  function Run(t: Threads, turns: seq<Turn>): Threads
    requires CanRun(t, turns)
    decreases |turns|
  {
    if turns == [] then t else Run(Step(t, turns[0]), turns[1..])
  }

  /** The lock is held by one of them at most, and a stop is requested exactly from the join on. */
  predicate Valid(t: Threads) {
    !(ResetHolds(t) && t.cleaner.Sweeping?) && (t.stop <==> t.reset.Joining? || t.reset.Returned?)
    && (t.reset.Returned? ==> t.cleaner.Ended?)
  }

  lemma {:induction false} RunKeepsValid(t: Threads, turns: seq<Turn>)
    requires Valid(t) && CanRun(t, turns)
    ensures Valid(Run(t, turns))
    decreases |turns|
  {
    if turns != [] { RunKeepsValid(Step(t, turns[0]), turns[1..]); }
  }

  /** How often a run brings the cleaner to a place. */
  function Arrivals(t: Threads, turns: seq<Turn>, at: CleanerAt): nat
    requires CanRun(t, turns)
    decreases |turns|
  {
    if turns == [] then 0
    else
      var next := Step(t, turns[0]);
      (if turns[0].CleanersTurn? && next.cleaner == at then 1 else 0) + Arrivals(next, turns[1..], at)
  }

  /** Between two waits there is exactly one sweep, and it never waits without having swept. */
  lemma {:induction false} OneSweepEach(t: Threads, turns: seq<Turn>)
    requires CanRun(t, turns)
    ensures Arrivals(t, turns, Sweeping) + (if t.cleaner.Sweeping? then 1 else 0)
            == Arrivals(t, turns, Sleeping) + (if Run(t, turns).cleaner.Sweeping? then 1 else 0)
    decreases |turns|
  {
    if turns != [] { OneSweepEach(Step(t, turns[0]), turns[1..]); }
  }

  lemma {:induction false} StuckForEver(t: Threads, turns: seq<Turn>)
    requires t.reset.Joining? && t.cleaner.BeforeLock? && CanRun(t, turns)
    ensures turns == [] && Run(t, turns) == t
  {
  }

  lemma RunStep(t: Threads, who: Turn, turns: seq<Turn>)
    requires CanStep(t, who) && CanRun(Step(t, who), turns)
    ensures CanRun(t, [who] + turns) && Run(t, [who] + turns) == Run(Step(t, who), turns)
  {
    assert ([who] + turns)[1..] == turns;
  }

  /** The cleaner ends by itself once a stop is requested, unless it is on its way to the lock. */
  lemma {:induction false} CanReturn(t: Threads) returns (turns: seq<Turn>)
    requires Valid(t) && t.reset.Joining? && !t.cleaner.BeforeLock?
    ensures CanRun(t, turns) && Run(t, turns).reset.Returned?
    decreases match t.cleaner case Sleeping => 2 case Checking => 1 case _ => 0
  {
    if t.cleaner.Ended? {
      assert CanRun(Step(t, ResetsTurn), []) && Run(Step(t, ResetsTurn), []).reset.Returned?;
      RunStep(t, ResetsTurn, []);
      turns := [ResetsTurn] + [];
    } else {
      var rest := CanReturn(Step(t, CleanersTurn));
      RunStep(t, CleanersTurn, rest);
      turns := [CleanersTurn] + rest;
    }
  }

  /** When `reset` joins the cleaner, it can return exactly if the cleaner is not on its way to the lock: if
      it is, both threads wait for each other, and neither ever takes a step again. */
  lemma ResetReturns(start: Threads, before: seq<Turn>)
    requires Valid(start) && CanRun(start, before) && Run(start, before).reset.Joining?
    ensures var t := Run(start, before);
            (exists turns :: CanRun(t, turns) && Run(t, turns).reset.Returned?) <==> !t.cleaner.BeforeLock?
    ensures var t := Run(start, before);
            t.cleaner.BeforeLock? ==> forall who :: !CanStep(t, who)
  {
    RunKeepsValid(start, before);
    var t := Run(start, before);
    if t.cleaner.BeforeLock? {
      forall turns | CanRun(t, turns) ensures !Run(t, turns).reset.Returned? {
        StuckForEver(t, turns);
      }
    } else {
      var turns := CanReturn(t);
    }
  }

  /** The case: the cleaner has just found that it need not stop, and `reset` comes first to the lock. */
  lemma Deadlock()
    ensures var start := Threads(Checking, Outside, false);
            exists turns :: CanRun(start, turns) && forall who :: !CanStep(Run(start, turns), who)
  {
    var t0 := Threads(Checking, Outside, false);
    var t1 := Step(t0, CleanersTurn);
    var t2 := Step(t1, ResetsTurn);
    var t3 := Step(t2, ResetsTurn);
    var t4 := Step(t3, ResetsTurn);
    assert CanRun(t4, []) && Run(t4, []) == t4;
    RunStep(t3, ResetsTurn, []);
    RunStep(t2, ResetsTurn, [ResetsTurn] + []);
    RunStep(t1, ResetsTurn, [ResetsTurn] + ([ResetsTurn] + []));
    RunStep(t0, CleanersTurn, [ResetsTurn] + ([ResetsTurn] + ([ResetsTurn] + [])));
  }
}
