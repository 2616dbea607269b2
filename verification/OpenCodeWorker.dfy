/** The OpenCode worker of internal/opencode/worker.go: refresh requests are coalesced into one
    background loop, and prompts, events, errors and Close interleave over one mutex. A step is one
    critical section, one refresh call or one callback. */
module OpenCodeWorker {

  datatype Status = Idle | Running | Error

  /** Where a refresh goroutine stands: about to refresh, refreshing since a moment, holding the
      result, about to hand it over, or about to decide whether to go on. */
  datatype Loop = Ready | Fetching(since: nat) | Fetched(since: nat, ok: bool) | Publishing(since: nat) | Deciding

  /** `clock` numbers the steps. `returned` says that the first Close has returned, and `closes` counts
      all that have. `owed` counts the turns that ended without having asked for their
      refresh yet. */
  datatype State = State(
    status: Status, error: string, closed: bool, refreshing: bool, refreshAgain: bool, returned: bool, closes: nat,
    clock: nat, loops: map<nat, Loop>, owed: nat,
    lastRequest: nat, lastFinish: nat, lastStart: nat, published: seq<nat>,
    entered: nat, dones: nat)

  datatype Step =
    | Schedule(owed: bool)          // scheduleRefresh's critical section
    | Refreshing(r: RefreshStep)
    | Turning(t: TurnStep)
    | Close                         // Close's critical section; a later one returns at once
    | Return                        // the first Close after its wait

  datatype RefreshStep =
    | Start(id: nat)                // the loop calls refresh
    | Fetch(id: nat, ok: bool)      // the call returns
    | Check(id: nat)                // it looks whether the worker is closed
    | Publish(id: nat)              // it hands the projection over
    | Decide(id: nat)               // it goes on or ends

  datatype TurnStep =
    | Begin                         // Prompt's critical section
    | FailOperation(error: string)  // operationError
    | FailAbort(error: string)      // abortError
    | Fatal(error: string)
    | Observe(error: string)        // GetState finds the session busy
    | Finish(error: string)         // finishTurn's critical section

  const Initial := State(Idle, "", false, false, false, false, 0, 0, map[], 0, 0, 0, 0, [], 0, 0)

  ghost predicate CanRefresh(s: State, step: RefreshStep) {
    match step
    case Start(id) => id in s.loops && s.loops[id].Ready?
    case Fetch(id, _) => id in s.loops && s.loops[id].Fetching?
    case Check(id) => id in s.loops && s.loops[id].Fetched?
    case Publish(id) => id in s.loops && s.loops[id].Publishing?
    case Decide(id) => id in s.loops && s.loops[id].Deciding?
  }

  ghost function ApplyRefresh(s: State, step: RefreshStep): State
    requires CanRefresh(s, step)
  {
    match step
    case Start(id) => s.(loops := s.loops[id := Fetching(s.clock)], lastStart := s.clock)
    case Fetch(id, ok) => s.(loops := s.loops[id := Fetched(s.loops[id].since, ok)])
    case Check(id) =>
      s.(loops := s.loops[id := if s.loops[id].ok && !s.closed then Publishing(s.loops[id].since) else Deciding])
    case Publish(id) => s.(loops := s.loops[id := Deciding], published := s.published + [s.loops[id].since])
    case Decide(id) =>
      if !s.refreshAgain || s.closed then s.(refreshing := false, refreshAgain := false, loops := s.loops - {id})
      else s.(refreshAgain := false, loops := s.loops[id := Ready])
  }

  ghost function ApplySchedule(s: State, owed: bool): State {
    var s := if owed && s.owed > 0 then s.(owed := s.owed - 1) else s;
    if s.closed then s
    else if s.refreshing then s.(refreshAgain := true, lastRequest := s.clock)
    else s.(refreshing := true, loops := s.loops[s.clock := Ready], lastRequest := s.clock)
  }

  ghost function ApplyTurn(s: State, step: TurnStep): State {
    match step
    case Begin =>
      if s.closed || !s.status.Idle? then s else s.(status := Running, error := "", entered := s.entered + 1)
    case FailOperation(error) => if s.closed || s.status.Error? then s else s.(status := Idle, error := error)
    case FailAbort(error) => if s.closed || s.status.Error? then s else s.(error := error)
    case Fatal(error) => if s.closed || s.status.Error? then s else s.(status := Error, error := error)
    case Observe(error) =>
      if s.closed || s.status.Error? then s
      else s.(status := Running, error := error, entered := s.entered + if s.status.Running? then 0 else 1)
    case Finish(error) =>
      if s.closed || !s.status.Running? then s
      else s.(status := Idle, error := error, dones := s.dones + 1, lastFinish := s.clock, owed := s.owed + 1)
  }

  ghost predicate Enabled(s: State, step: Step) {
    match step
    case Schedule(owed) => owed ==> s.owed > 0
    case Refreshing(r) => CanRefresh(s, r)
    case Turning(_) => true
    case Close => true
    case Return => s.closed && !s.returned && s.loops == map[]
  }

  ghost function Apply(before: State, step: Step): State
    requires Enabled(before, step)
  {
    var s := before.(clock := before.clock + 1);
    match step
    case Schedule(owed) => ApplySchedule(s, owed)
    case Refreshing(r) => ApplyRefresh(s, r)
    case Turning(t) => ApplyTurn(s, t)
    case Close => if s.closed then s.(closes := s.closes + 1) else s.(closed := true)
    case Return => s.(returned := true, closes := s.closes + 1)
  }

  ghost predicate Run(s: State, steps: seq<Step>, end: State)
    decreases steps
  {
    if steps == [] then end == s
    else Enabled(s, steps[0]) && Run(Apply(s, steps[0]), steps[1..], end)
  }

  // ---------------------------------------------------------------- what every step keeps

  /** At most one refresh goroutine exists, exactly while `refreshing` is set; and a repetition is
      only ever asked of a running one. */
  ghost predicate OneLoop(s: State) {
    && (forall i, j :: i in s.loops && j in s.loops ==> i == j)
    && (s.refreshing <==> s.loops != map[])
    && (s.refreshAgain ==> s.refreshing)
  }

  /** Unless a refresh is still to come, the last one started after the last request. */
  ghost predicate NothingMissed(s: State) {
    && (!s.closed && s.loops == map[] ==> s.lastRequest <= s.lastStart)
    && (forall id :: !s.closed && id in s.loops && !s.loops[id].Ready? && !s.refreshAgain ==>
          s.lastRequest <= s.lastStart)
    && s.lastRequest <= s.clock && s.lastStart <= s.clock && s.lastFinish <= s.clock
  }

  ghost predicate FinishesAsk(s: State) {
    !s.closed && s.owed == 0 ==> s.lastFinish <= s.lastRequest
  }

  ghost predicate Since(s: State, loop: Loop) {
    loop.Fetching? || loop.Fetched? || loop.Publishing? ==> loop.since == s.lastStart
  }

  /** Projections are handed over in the order of their refreshes, the latest refresh last. */
  ghost predicate InOrder(s: State) {
    && (forall id :: id in s.loops ==> Since(s, s.loops[id]))
    && (forall id :: id in s.loops && (s.loops[id].Fetching? || s.loops[id].Fetched? || s.loops[id].Publishing?) ==>
          forall k :: 0 <= k < |s.published| ==> s.published[k] < s.lastStart)
    && (forall k :: 0 <= k < |s.published| ==> s.published[k] <= s.lastStart)
    && (forall j, k :: 0 <= j < k < |s.published| ==> s.published[j] < s.published[k])
  }

  ghost predicate DonesCounted(s: State) {
    s.dones + (if s.status.Running? then 1 else 0) <= s.entered
  }

  ghost predicate ReturnedIsQuiet(s: State) {
    s.returned ==> s.closed && s.loops == map[]
  }

  ghost predicate Inv(s: State) {
    OneLoop(s) && NothingMissed(s) && FinishesAsk(s) && InOrder(s) && DonesCounted(s) && ReturnedIsQuiet(s)
  }

  lemma RefreshKeepsInv(s: State, r: RefreshStep)
    requires Inv(s) && CanRefresh(s, r)
    ensures OneLoop(Apply(s, Refreshing(r))) && NothingMissed(Apply(s, Refreshing(r)))
    ensures InOrder(Apply(s, Refreshing(r)))
  {
    assert r.id in s.loops;
    var s' := Apply(s, Refreshing(r));
    assert r.Decide? && (!s.refreshAgain || s.closed) ==> s'.loops == map[];
    assert !(r.Decide? && (!s.refreshAgain || s.closed)) ==> r.id in s'.loops;
  }

  lemma ScheduleKeepsInv(s: State, owed: bool)
    requires Inv(s) && (owed ==> s.owed > 0)
    ensures OneLoop(Apply(s, Schedule(owed))) && NothingMissed(Apply(s, Schedule(owed)))
    ensures InOrder(Apply(s, Schedule(owed)))
  {
    var s' := Apply(s, Schedule(owed));
    assert !s.closed && !s.refreshing ==> s.clock + 1 in s'.loops && s'.loops.Keys == {s.clock + 1};
  }

  lemma SameLoops(s: State, s': State)
    requires OneLoop(s) && NothingMissed(s) && InOrder(s) && s'.clock >= s.clock && s'.lastFinish <= s'.clock
    requires s' == s.(clock := s'.clock, lastFinish := s'.lastFinish, closed := s'.closed, returned := s'.returned,
                      closes := s'.closes, status := s'.status, error := s'.error, entered := s'.entered,
                      dones := s'.dones, owed := s'.owed)
    requires s.closed ==> s'.closed
    ensures OneLoop(s') && NothingMissed(s') && InOrder(s')
  {}

  lemma TurnKeepsInv(s: State, step: Step)
    requires Inv(s) && Enabled(s, step) && (step.Turning? || step.Close? || step.Return?)
    ensures OneLoop(Apply(s, step)) && NothingMissed(Apply(s, step)) && InOrder(Apply(s, step))
  {
    SameLoops(s, Apply(s, step));
  }

  lemma FinishesAskKept(s: State, step: Step)
    requires Inv(s) && Enabled(s, step)
    ensures FinishesAsk(Apply(s, step))
  {}

  lemma TurnKeepsDones(s: State, step: TurnStep)
    requires DonesCounted(s)
    ensures DonesCounted(ApplyTurn(s, step))
  {}

  lemma RefreshKeepsDones(s: State, r: RefreshStep)
    requires DonesCounted(s) && CanRefresh(s, r)
    ensures DonesCounted(ApplyRefresh(s, r))
  {}

  lemma ScheduleKeepsDones(s: State, owed: bool)
    requires DonesCounted(s)
    ensures DonesCounted(ApplySchedule(s, owed))
  {}

  lemma DonesKept(s: State, step: Step)
    requires DonesCounted(s) && Enabled(s, step)
    ensures DonesCounted(Apply(s, step))
  {
    var now := s.(clock := s.clock + 1);
    assert DonesCounted(now);
    match step
    case Turning(t) =>
      TurnKeepsDones(now, t);
      assert Apply(s, step) == ApplyTurn(now, t);
    case Refreshing(r) =>
      RefreshKeepsDones(now, r);
      assert Apply(s, step) == ApplyRefresh(now, r);
    case Schedule(owed) =>
      ScheduleKeepsDones(now, owed);
      assert Apply(s, step) == ApplySchedule(now, owed);
    case Close => assert Apply(s, step).dones == now.dones && Apply(s, step).entered == now.entered;
    case Return => assert Apply(s, step).dones == now.dones && Apply(s, step).entered == now.entered;
  }

  lemma QuietKept(s: State, step: Step)
    requires ReturnedIsQuiet(s) && Enabled(s, step)
    ensures ReturnedIsQuiet(Apply(s, step))
  {}

  lemma StepKeepsInv(s: State, step: Step)
    requires Inv(s) && Enabled(s, step)
    ensures Inv(Apply(s, step))
  {
    FinishesAskKept(s, step);
    DonesKept(s, step);
    QuietKept(s, step);
    if step.Turning? || step.Close? || step.Return? { TurnKeepsInv(s, step); }
    if step.Refreshing? { RefreshKeepsInv(s, step.r); }
    if step.Schedule? { ScheduleKeepsInv(s, step.owed); }
  }

  lemma {:induction false} RunKeepsInv(s: State, steps: seq<Step>, end: State)
    requires Inv(s) && Run(s, steps, end)
    ensures Inv(end)
    decreases steps
  {
    if steps != [] {
      StepKeepsInv(s, steps[0]);
      RunKeepsInv(Apply(s, steps[0]), steps[1..], end);
    }
  }

  /** Over every run: at most one refresh runs at a time; an open worker that is not refreshing has
      started its last refresh after the last request and after the last turn that ended; projections
      are handed over in order; and no more turns are announced done than began. */
  lemma EveryRunIsSafe(steps: seq<Step>, end: State)
    requires Run(Initial, steps, end)
    ensures forall i, j :: i in end.loops && j in end.loops ==> i == j
    ensures end.refreshAgain ==> end.refreshing
    ensures !end.closed && !end.refreshing ==> end.lastRequest <= end.lastStart
    ensures !end.closed && !end.refreshing && end.owed == 0 ==> end.lastFinish <= end.lastStart
    ensures forall j, k :: 0 <= j < k < |end.published| ==> end.published[j] < end.published[k]
    ensures end.dones <= end.entered
    ensures end.returned ==> end.loops == map[]
  {
    RunKeepsInv(Initial, steps, end);
  }

  /** Error is absorbing: no operation leaves it or changes its message. */
  lemma {:induction false} ErrorIsAbsorbing(s: State, steps: seq<Step>, end: State)
    requires s.status.Error? && Run(s, steps, end)
    ensures end.status.Error? && end.error == s.error && end.dones == s.dones
    decreases steps
  {
    if steps != [] { ErrorIsAbsorbing(Apply(s, steps[0]), steps[1..], end); }
  }

  /** A running turn of an open worker ends exactly by finishing, by a failed operation or by a fatal
      error: a failed abort does not end it, and nothing ends it once the worker is closed. */
  lemma RunningEndsProperly(s: State, step: Step)
    requires Enabled(s, step) && s.status.Running?
    ensures !Apply(s, step).status.Running? <==>
              !s.closed && step.Turning? && (step.t.Finish? || step.t.FailOperation? || step.t.Fatal?)
    ensures Apply(s, step).dones != s.dones <==> !s.closed && step.Turning? && step.t.Finish?
  {}

  /** Once the first Close has returned, nothing refreshes or hands over a projection any more. */
  lemma {:induction false} ClosedIsQuiet(s: State, steps: seq<Step>, end: State)
    requires s.returned && Inv(s) && Run(s, steps, end)
    ensures end.lastStart == s.lastStart && end.published == s.published && end.status == s.status
    decreases steps
  {
    if steps != [] {
      StepKeepsInv(s, steps[0]);
      ClosedIsQuiet(Apply(s, steps[0]), steps[1..], end);
    }
  }

  ghost predicate Reachable(s: State) {
    exists steps :: Run(Initial, steps, s)
  }

  /** What holds whenever a Close returns after the first has returned, or before. */
  ghost predicate ReturnMeansQuiet(firstReturned: bool) {
    forall s :: Reachable(s) && s.closed && s.returned == firstReturned ==> s.loops == map[]
  }

  /** A Close that returns can rely on no refresh being under way if and only if it was the first,
      which waits, or the first has returned: a later one returns at once. */
  lemma OnlyAFinishedCloseIsQuiet(firstReturned: bool)
    ensures ReturnMeansQuiet(firstReturned) <==> firstReturned
    ensures forall s :: Reachable(s) && Enabled(s, Return) ==>
              Apply(s, Return).loops == map[] && Apply(s, Return).returned
  {
    forall s | Reachable(s) && s.closed && s.returned ensures s.loops == map[] {
      var steps :| Run(Initial, steps, s);
      EveryRunIsSafe(steps, s);
    }
    var s := CloseReturnsEarly();
  }

  /** Such a run: a refresh has been asked for when Close is called, and a second Close returns. */
  lemma CloseReturnsEarly() returns (s: State)
    ensures Reachable(s) && s.closed && !s.returned && s.closes == 1 && s.loops != map[]
  {
    var steps := [Schedule(false), Close, Close];
    var s1 := Apply(Initial, steps[0]);
    var s2 := Apply(s1, steps[1]);
    s := Apply(s2, steps[2]);
    assert steps[2..][1..] == [] && Run(s, [], s) && Run(s2, steps[2..], s);
    assert steps[1..][1..] == steps[2..] && Run(s1, steps[1..], s);
    assert Run(Initial, steps, s);
    assert s1.clock in s.loops;
  }

  /** A refresh under way can always take its next step, so a request made meanwhile is not stranded. */
  lemma NeverStuck(s: State)
    requires Inv(s) && s.refreshing
    ensures exists r :: CanRefresh(s, r)
  {
    var id :| id in s.loops;
    match s.loops[id]
    case Ready => assert CanRefresh(s, Start(id));
    case Fetching(_) => assert CanRefresh(s, Fetch(id, true));
    case Fetched(_, _) => assert CanRefresh(s, Check(id));
    case Publishing(_) => assert CanRefresh(s, Publish(id));
    case Deciding => assert CanRefresh(s, Decide(id));
  }

  // ---------------------------------------------------------------- the worker itself

  /** The worker's fields. Each method is a critical section, so any interleaving of calls is a run. */
  class Worker {
    var status: Status
    var error: string
    var closed: bool
    var refreshing: bool
    var refreshAgain: bool
    ghost var returned: bool
    ghost var closes: nat
    ghost var clock: nat
    ghost var loops: map<nat, Loop>
    ghost var owed: nat
    ghost var lastRequest: nat
    ghost var lastFinish: nat
    ghost var lastStart: nat
    ghost var published: seq<nat>
    ghost var entered: nat
    ghost var dones: nat

    ghost function Abs(): State
      reads this
    {
      State(status, error, closed, refreshing, refreshAgain, returned, closes, clock, loops, owed, lastRequest,
            lastFinish, lastStart, published, entered, dones)
    }

    constructor ()
      ensures Abs() == Initial
    {
      status, error, closed, refreshing, refreshAgain, returned := Idle, "", false, false, false, false;
      clock, loops, owed, lastRequest, lastFinish, lastStart := 0, map[], 0, 0, 0, 0;
      published, entered, dones, closes := [], 0, 0, 0;
    }

    /** scheduleRefresh; the caller starts a goroutine if told to. */
    method ScheduleRefresh(ghost asked: bool) returns (spawn: bool)
      requires Enabled(Abs(), Schedule(asked))
      modifies this
      ensures Abs() == Apply(old(Abs()), Schedule(asked))
      ensures spawn <==> !old(closed) && !old(refreshing)
    {
      clock := clock + 1;
      if asked { owed := owed - 1; }
      if closed {
        return false;
      }
      lastRequest := clock;
      if refreshing {
        refreshAgain := true;
        return false;
      }
      refreshing := true;
      loops := loops[clock := Ready];
      return true;
    }

    /** The end of one round of the loop. */
    method Decide(ghost id: nat) returns (again: bool)
      requires CanRefresh(Abs(), RefreshStep.Decide(id))
      modifies this
      ensures Abs() == Apply(old(Abs()), Refreshing(RefreshStep.Decide(id)))
      ensures again <==> old(refreshAgain) && !old(closed)
    {
      clock := clock + 1;
      if !refreshAgain || closed {
        refreshing := false;
        refreshAgain := false;
        loops := loops - {id};
        return false;
      }
      refreshAgain := false;
      loops := loops[id := Ready];
      return true;
    }

    /** Prompt's critical section. */
    method Begin() returns (ok: bool)
      modifies this
      ensures Abs() == Apply(old(Abs()), Turning(TurnStep.Begin)) && ok == (!old(closed) && old(status).Idle?)
    {
      clock := clock + 1;
      if closed || status.Error? || status.Running? {
        return false;
      }
      status, error := Running, "";
      entered := entered + 1;
      return true;
    }

    method OperationError(message: string)
      modifies this
      ensures Abs() == Apply(old(Abs()), Turning(FailOperation(message)))
    {
      clock := clock + 1;
      if !closed && !status.Error? {
        status, error := Idle, message;
      }
    }

    method AbortError(message: string)
      modifies this
      ensures Abs() == Apply(old(Abs()), Turning(FailAbort(message)))
    {
      clock := clock + 1;
      if !closed && !status.Error? {
        error := message;
      }
    }

    method Fatal(message: string)
      modifies this
      ensures Abs() == Apply(old(Abs()), Turning(TurnStep.Fatal(message)))
    {
      clock := clock + 1;
      if closed || status.Error? {
        return;
      }
      status, error := Error, message;
    }

    method ObserveBusy(message: string)
      modifies this
      ensures Abs() == Apply(old(Abs()), Turning(Observe(message)))
    {
      clock := clock + 1;
      if !closed && !status.Error? {
        entered := entered + if status.Running? then 0 else 1;
        status, error := Running, message;
      }
    }

    /** finishTurn; the caller then announces the turn done and asks for a refresh. */
    method FinishTurn(turnError: string) returns (done: bool)
      modifies this
      ensures Abs() == Apply(old(Abs()), Turning(Finish(turnError)))
      ensures done <==> !old(closed) && old(status).Running?
    {
      clock := clock + 1;
      if closed || !status.Running? {
        return false;
      }
      GoIdle(turnError);
      return true;
    }

    method GoIdle(turnError: string)
      requires !closed && status.Running?
      modifies this
      ensures Abs() == ApplyTurn(old(Abs()), Finish(turnError))
    {
      status, error := Idle, turnError;
      dones, lastFinish, owed := dones + 1, clock, owed + 1;
    }

    method Close() returns (first: bool)
      modifies this
      ensures Abs() == Apply(old(Abs()), Step.Close) && first == !old(closed)
    {
      clock := clock + 1;
      if closed {
        closes := closes + 1;
        return false;
      }
      closed := true;
      return true;
    }
  }
}
