/** The restart accounting of the OpenCode supervisor's run loop in internal/opencode/supervisor.go:
    the consecutive-failure budget, the exponential backoff, and the one value on the initial channel. */
module SupervisorBudget {

  const DEFAULT_MIN_BACKOFF := 250_000_000
  const DEFAULT_MAX_BACKOFF := 5_000_000_000
  const DEFAULT_ATTEMPTS := 5

  /** Durations are nanoseconds. */
  datatype Options = Options(minBackoff: int, maxBackoff: int, maxAttempts: int)

  /** The defaulting of NewSupervisor. */
  function Normalize(o: Options): (r: Options)
    ensures r.minBackoff > 0 && r.maxBackoff > 0 && r.maxAttempts > 0
  {
    var minBackoff := if o.minBackoff <= 0 then DEFAULT_MIN_BACKOFF else o.minBackoff;
    Options(minBackoff,
            if o.maxBackoff < minBackoff then DEFAULT_MAX_BACKOFF else o.maxBackoff,
            if o.maxAttempts <= 0 then DEFAULT_ATTEMPTS else o.maxAttempts)
  }

  /** The defaulting orders the two bounds exactly when the caller did, or when the minimum does not
      exceed the default maximum. */
  lemma NormalizeOrdersBounds(o: Options)
    ensures Normalize(o).minBackoff <= Normalize(o).maxBackoff <==>
            o.maxBackoff >= Normalize(o).minBackoff || Normalize(o).minBackoff <= DEFAULT_MAX_BACKOFF
  {}

  // ---------------------------------------------------------------- the run loop

  /** What one trip round the loop meets: a launch that fails, or a generation that serves, perhaps
      past the stability timer, until it fails or the context is cancelled. */
  datatype Outcome = LaunchFails | Serves(stable: bool, cancelled: bool)

  datatype Trip = Trip(cancelledBefore: bool, outcome: Outcome, cancelledInWait: bool)

  datatype Event = Launch | Stable | Wait(duration: int)

  function LaunchesSinceStable(log: seq<Event>): nat {
    if log == [] then 0
    else match log[|log| - 1]
      case Stable => 0
      case Launch => LaunchesSinceStable(log[..|log| - 1]) + 1
      case Wait(_) => LaunchesSinceStable(log[..|log| - 1])
  }

  function WaitsSinceStable(log: seq<Event>): nat {
    if log == [] then 0
    else match log[|log| - 1]
      case Stable => 0
      case Launch => WaitsSinceStable(log[..|log| - 1])
      case Wait(_) => WaitsSinceStable(log[..|log| - 1]) + 1
  }

  function Launches(log: seq<Event>): nat {
    if log == [] then 0 else Launches(log[..|log| - 1]) + if log[|log| - 1].Launch? then 1 else 0
  }

  function Pow2(k: nat): nat {
    if k == 0 then 1 else 2 * Pow2(k - 1)
  }

  function Min(a: int, b: int): int {
    if a < b then a else b
  }

  /** The k-th wait since the last stable boundary, counting from 1. */
  function BackoffAt(o: Options, k: nat): int {
    if k <= 1 then o.minBackoff else Min(2 * BackoffAt(o, k - 1), o.maxBackoff)
  }

  /** Between stable generations there are never more launches than the budget allows. */
  ghost predicate WithinBudget(o: Options, log: seq<Event>) {
    forall i :: 0 <= i <= |log| ==> LaunchesSinceStable(log[..i]) <= o.maxAttempts
  }

  /** Every wait is exactly the one its position since the last stable boundary calls for. */
  ghost predicate BacksOff(o: Options, log: seq<Event>) {
    forall i :: 0 <= i < |log| && log[i].Wait? ==> log[i].duration == BackoffAt(o, WaitsSinceStable(log[..i]) + 1)
  }

  lemma ExtendBudget(o: Options, log: seq<Event>, e: Event)
    requires WithinBudget(o, log) && LaunchesSinceStable(log + [e]) <= o.maxAttempts
    ensures WithinBudget(o, log + [e])
  {
    forall i | 0 <= i <= |log| + 1 ensures LaunchesSinceStable((log + [e])[..i]) <= o.maxAttempts {
      if i <= |log| { assert (log + [e])[..i] == log[..i]; } else { assert (log + [e])[..i] == log + [e]; }
    }
  }

  lemma ExtendBackoff(o: Options, log: seq<Event>, e: Event)
    requires BacksOff(o, log) && (e.Wait? ==> e.duration == BackoffAt(o, WaitsSinceStable(log) + 1))
    ensures BacksOff(o, log + [e])
  {
    forall i | 0 <= i < |log| + 1 && (log + [e])[i].Wait?
      ensures (log + [e])[i].duration == BackoffAt(o, WaitsSinceStable((log + [e])[..i]) + 1)
    {
      assert (log + [e])[..i] == log[..i];
      assert log[..|log|] == log;
    }
  }

  lemma Counts(log: seq<Event>, e: Event)
    ensures LaunchesSinceStable(log + [e]) ==
            if e.Stable? then 0 else LaunchesSinceStable(log) + if e.Launch? then 1 else 0
    ensures WaitsSinceStable(log + [e]) == if e.Stable? then 0 else WaitsSinceStable(log) + if e.Wait? then 1 else 0
    ensures Launches(log + [e]) == Launches(log) + if e.Launch? then 1 else 0
  {}

  /** The log respects the budget and the backoff, `used` launches have been spent since the last
      stable boundary, and `backoff` is the wait that comes next. */
  ghost predicate Ledger(o: Options, log: seq<Event>, used: int, backoff: int) {
    && WithinBudget(o, log) && BacksOff(o, log)
    && LaunchesSinceStable(log) == used && backoff == BackoffAt(o, WaitsSinceStable(log) + 1)
  }

  lemma EmptyLedger(o: Options)
    requires o.maxAttempts > 0
    ensures Ledger(o, [], 0, o.minBackoff)
  {}

  lemma LedgerLaunch(o: Options, log: seq<Event>, used: int, backoff: int)
    requires Ledger(o, log, used, backoff) && used < o.maxAttempts
    ensures Ledger(o, log + [Launch], used + 1, backoff) && Launches(log + [Launch]) == Launches(log) + 1
  {
    Counts(log, Launch);
    ExtendBudget(o, log, Launch);
    ExtendBackoff(o, log, Launch);
  }

  lemma LedgerStable(o: Options, log: seq<Event>, used: int, backoff: int)
    requires Ledger(o, log, used, backoff) && o.maxAttempts > 0
    ensures Ledger(o, log + [Stable], 0, o.minBackoff) && Launches(log + [Stable]) == Launches(log)
  {
    Counts(log, Stable);
    ExtendBudget(o, log, Stable);
    ExtendBackoff(o, log, Stable);
  }

  lemma LedgerWait(o: Options, log: seq<Event>, used: int, backoff: int)
    requires Ledger(o, log, used, backoff) && used <= o.maxAttempts && o.minBackoff > 0 && o.maxBackoff > 0
    ensures Ledger(o, log + [Wait(backoff)], used, Min(2 * backoff, o.maxBackoff))
    ensures Launches(log + [Wait(backoff)]) == Launches(log)
  {
    Counts(log, Wait(backoff));
    ExtendBudget(o, log, Wait(backoff));
    ExtendBackoff(o, log, Wait(backoff));
  }

  predicate Steady(trip: Trip) {
    trip.outcome.Serves? && trip.outcome.stable
  }

  ghost predicate NeverStable(trips: seq<Trip>) {
    forall i :: 0 <= i < |trips| ==> !Steady(trips[i])
  }

  ghost predicate EverServes(trips: seq<Trip>) {
    exists i :: 0 <= i < |trips| && trips[i].outcome.Serves?
  }

  /** One trip round the loop. `initial` holds the values sent on the initial channel so far (true
      for success); `initialSent` is the loop's own flag, which only the success sets; `finished` says
      the loop returned. */
  method OneTrip(o: Options, trip: Trip, log: seq<Event>, initial: seq<bool>, initialSent: bool, failures: int,
                 backoff: int)
    returns (log': seq<Event>, initial': seq<bool>, sent': bool, failures': int, backoff': int, finished: bool)
    requires o.minBackoff > 0 && o.maxBackoff > 0
    requires Ledger(o, log, failures, backoff) && failures < o.maxAttempts
    requires initial == if initialSent then [true] else []
    ensures finished ==> WithinBudget(o, log') && BacksOff(o, log')
    ensures !finished ==> Ledger(o, log', failures', backoff') && failures' < o.maxAttempts
    ensures Launches(log') == Launches(log) + if trip.cancelledBefore then 0 else 1
    ensures trip.cancelledBefore ==> finished && log' == log
    ensures !finished ==> initial' == if sent' then [true] else []
    ensures initial' == if initialSent || (!trip.cancelledBefore && trip.outcome.Serves?) then [true]
                        else if finished then [false] else []
    ensures Stable in log' ==> Stable in log || Steady(trip)
  {
    log', initial', sent', failures', backoff', finished := log, initial, initialSent, failures, backoff, true;
    if trip.cancelledBefore {
      if !sent' { initial' := initial' + [false]; }
      return;
    }
    LedgerLaunch(o, log', failures', backoff');
    log' := log' + [Launch];
    if trip.outcome.LaunchFails? {
      failures' := failures' + 1;
      if failures' >= o.maxAttempts {
        if !sent' { initial' := initial' + [false]; }
        return;
      }
      LedgerWait(o, log', failures', backoff');
      log' := log' + [Wait(backoff')];
      if trip.cancelledInWait {
        if !sent' { initial' := initial' + [false]; }
        return;
      }
      backoff', finished := Min(2 * backoff', o.maxBackoff), false;
      return;
    }
    if !sent' {
      initial', sent' := initial' + [true], true;
    }
    log', failures', backoff', finished := Served(o, trip, log', failures', backoff');
  }

  /** The rest of a trip whose generation serves. */
  method Served(o: Options, trip: Trip, log: seq<Event>, failures: int, backoff: int)
    returns (log': seq<Event>, failures': int, backoff': int, finished: bool)
    requires o.minBackoff > 0 && o.maxBackoff > 0 && trip.outcome.Serves?
    requires Ledger(o, log, failures + 1, backoff) && 0 <= failures < o.maxAttempts
    ensures finished ==> WithinBudget(o, log') && BacksOff(o, log')
    ensures !finished ==> Ledger(o, log', failures', backoff') && failures' < o.maxAttempts
    ensures Launches(log') == Launches(log)
    ensures Stable in log' ==> Stable in log || Steady(trip)
  {
    log', failures', backoff', finished := log, failures, backoff, true;
    ghost var used := failures + 1;
    var stable := false;
    if trip.outcome.stable {
      LedgerStable(o, log', used, backoff');
      log' := log' + [Stable];
      stable, failures', backoff', used := true, 0, o.minBackoff, 0;
    }
    if trip.outcome.cancelled {
      return;
    }
    if !stable {
      failures' := failures' + 1;
      if failures' >= o.maxAttempts {
        return;
      }
    }
    LedgerWait(o, log', used, backoff');
    log' := log' + [Wait(backoff')];
    if trip.cancelledInWait {
      return;
    }
    backoff', finished := Min(2 * backoff', o.maxBackoff), false;
  }

  /** The loop of run, meeting the given trips in order. */
  method Run(o: Options, trips: seq<Trip>) returns (log: seq<Event>, initial: seq<bool>, finished: bool)
    requires o.minBackoff > 0 && o.maxBackoff > 0 && o.maxAttempts > 0
    ensures WithinBudget(o, log) && BacksOff(o, log)
    ensures |initial| <= 1 && (finished ==> |initial| == 1)
    ensures Launches(log) <= |trips| && (!finished ==> Launches(log) == |trips|)
    ensures initial == [true] <==> EverServes(trips[..Launches(log)])
    ensures NeverStable(trips[..Launches(log)]) ==> Stable !in log
  {
    var backoff, failures, initialSent := o.minBackoff, 0, false;
    log, initial, finished := [], [], false;
    EmptyLedger(o);
    var t := 0;
    while t < |trips| && !finished
      invariant 0 <= t <= |trips| && Launches(log) <= t && (!finished ==> Launches(log) == t)
      invariant !finished ==> Ledger(o, log, failures, backoff) && failures < o.maxAttempts
      invariant WithinBudget(o, log) && BacksOff(o, log)
      invariant if finished then |initial| == 1 else initial == if initialSent then [true] else []
      invariant initial == [true] <==> EverServes(trips[..Launches(log)])
      invariant NeverStable(trips[..Launches(log)]) ==> Stable !in log
    {
      OneMoreTrip(trips, t);
      log, initial, initialSent, failures, backoff, finished := OneTrip(o, trips[t], log, initial, initialSent,
                                                                        failures, backoff);
      t := t + 1;
    }
  }

  lemma OneMoreTrip(trips: seq<Trip>, t: nat)
    requires t < |trips|
    ensures EverServes(trips[..t + 1]) <==> EverServes(trips[..t]) || trips[t].outcome.Serves?
    ensures NeverStable(trips[..t + 1]) <==>
            NeverStable(trips[..t]) && !Steady(trips[t])
  {}

  lemma {:induction false} WithoutStableAllCount(log: seq<Event>)
    requires Stable !in log
    ensures LaunchesSinceStable(log) == Launches(log)
  {
    if log != [] { WithoutStableAllCount(log[..|log| - 1]); }
  }

  /** A supervisor that never reaches stability gives up within its budget: it cannot still be
      running after more than maxAttempts trips. */
  method NeverStableGivesUp(o: Options, trips: seq<Trip>) returns (launches: nat, finished: bool)
    requires o.minBackoff > 0 && o.maxBackoff > 0 && o.maxAttempts > 0 && |trips| > o.maxAttempts
    requires NeverStable(trips)
    ensures finished && launches <= o.maxAttempts
  {
    var log, initial, done := Run(o, trips);
    WithoutStableAllCount(log);
    assert log[..|log|] == log;
    launches, finished := Launches(log), done;
  }

  /** The closed form of the waits: capped doubling from the second one on. */
  lemma {:induction false} BackoffClosedForm(o: Options, k: nat)
    requires o.minBackoff > 0 && o.maxBackoff > 0 && k >= 1
    ensures BackoffAt(o, k) == if k == 1 then o.minBackoff else Min(o.minBackoff * Pow2(k - 1), o.maxBackoff)
  {
    if k > 1 {
      BackoffClosedForm(o, k - 1);
      assert Pow2(k - 1) == 2 * Pow2(k - 2);
      assert o.minBackoff * Pow2(k - 1) == 2 * (o.minBackoff * Pow2(k - 2));
      assert k == 2 ==> Pow2(k - 2) == 1;
    }
  }

  /** The waits follow min(Min·2^(k-1), Max) throughout exactly when Min <= Max; otherwise only the
      first wait differs. */
  lemma BackoffIsCappedDoubling(o: Options)
    requires o.minBackoff > 0 && o.maxBackoff > 0
    ensures (forall k: nat :: k >= 1 ==> BackoffAt(o, k) == Min(o.minBackoff * Pow2(k - 1), o.maxBackoff))
            <==> o.minBackoff <= o.maxBackoff
  {
    assert Pow2(0) == 1;
    forall k: nat | k >= 1
      ensures BackoffAt(o, k) == if k == 1 then o.minBackoff else Min(o.minBackoff * Pow2(k - 1), o.maxBackoff)
    {
      BackoffClosedForm(o, k);
    }
    assert BackoffAt(o, 1) == o.minBackoff;
  }

  /** An input for both: a minimum of ten seconds, set alone, is left above the default maximum, and
      then the first wait is longer than the maximum. */
  lemma LongMinimum()
    ensures Normalize(Options(10_000_000_000, 0, 0)) == Options(10_000_000_000, DEFAULT_MAX_BACKOFF, DEFAULT_ATTEMPTS)
    ensures BackoffAt(Options(10_000_000_000, DEFAULT_MAX_BACKOFF, DEFAULT_ATTEMPTS), 1) > DEFAULT_MAX_BACKOFF
    ensures BackoffAt(Options(10_000_000_000, DEFAULT_MAX_BACKOFF, DEFAULT_ATTEMPTS), 2) == DEFAULT_MAX_BACKOFF
  {}
}
