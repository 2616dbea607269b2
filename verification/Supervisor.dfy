/** The OpenCode supervisor of internal/opencode/supervisor.go as a protocol between its run loop,
    any callers of Close, and child processes that may exit at any moment. A step is one critical
    section, channel operation, kill or system call; `pc` names the point the run loop has reached. */
module Supervisor {
  import opened Options

  /** A child process. `tokens` counts the copies of its exit result still in its processDone
      channel; the three flags record which readiness checks the generation has passed. */
  datatype Child = Child(alive: bool, killed: bool, tokens: nat, healthy: bool, streaming: bool, reconciled: bool)

  datatype Pc =
    | NotStarted
    | Top                                // head of the loop, before the context check
    | Starting                           // inside launch, before the process exists
    | Spawned                            // the process runs but s.process is not set yet
    | Probing(inFlight: bool)            // awaitHealth, with or without a request under way
    | Connecting                         // waiting for the event stream
    | Reconciling
    | Checking                           // the final look at stream and process
    | Reaping | AwaitReaped              // kill a generation that failed to launch, then wait for it
    | LaunchFailed | LaunchFailedCleared // launch returned an error; before and after clearing s.process
    | WaitingAfterFailure
    | Launched | Announcing              // launch succeeded; before and after setting s.client
    | Serving
    | StreamLost | AwaitLost             // stream failed under a live context: kill, then wait
    | Cancelling | AwaitCancelled | CancelledExited
    | Down | DownCleared                 // the generation is over; before and after clearing s.process
    | WaitingAfterDown
    | Finished                           // run has returned and s.done is closed

  datatype Closer = Idle | Taken | Killed | Closed

  datatype Announcement = Available(generation: nat) | Unavailable

  datatype State = State(
    pc: Pc, children: seq<Child>, process: Option<nat>, client: bool,
    started: bool, closed: bool, cancelled: bool,
    closer: Closer, taken: Option<nat>,  // the first Close, and s.process as it read it
    closes: nat,                         // calls of Close that have returned
    initialSent: bool,                   // run's own flag
    initial: seq<bool>,                  // values sent on the initial channel; true is nil
    published: seq<Announcement>)

  datatype Step =
    | Begins(b: Beginning) | Readies(r: Readiness) | Fails(f: Failure) | Recovers(c: Recovery)
    | Serves(v: Service) | Cancels(n: Cancellation) | Ends(e: Ending) | Outside(o: Environment)

  /** Start, and launch up to the health probe. */
  datatype Beginning = Begin | CheckContext | Spawn | Record | Probe | ProbeFails

  /** The readiness checks of launch. */
  datatype Readiness = ProbeOk | StreamReady | ReconcileOk | CheckOk

  /** How launch fails. Abandon: a check failed, timed out or was cancelled. ExitSeen: the child's
      exit was received, by a check or by the wait after a kill. */
  datatype Failure = StartFails | Abandon | Reap | ExitSeen

  /** What run does after a failed launch, and how either backoff wait ends. */
  datatype Recovery = ClearFailed | Retry | GiveUp | Resume | StopWaiting

  datatype Service = SetClient | Announce | ExitServed | LoseStream | KillLost

  datatype Cancellation = SeeCancel | KillCancelled | CancelledExit | ClearCancelled

  datatype Ending = ClearDown | StopCancelled | GiveUpUnstable | RetryAfterDown

  /** Children, the first call of Close, and any later one. */
  datatype Environment = Exit(child: nat) | CloseTake | CloseKill | CloseFinish | CloseAgain

  const Initial := State(NotStarted, [], None, false, false, false, false, Idle, None, 0, false, [], [])

  ghost predicate ExitPosted(s: State) {
    s.children != [] && s.children[|s.children| - 1].tokens > 0
  }

  ghost function Kill(children: seq<Child>, target: Option<nat>): seq<Child>
    requires target.Some? ==> target.value < |children|
  {
    if target.Some? then children[target.value := children[target.value].(killed := true)] else children
  }

  /** The current generation, after one result has been received from its processDone channel. */
  ghost function Consume(children: seq<Child>): seq<Child>
    requires children != [] && children[|children| - 1].tokens > 0
  {
    var cur := |children| - 1;
    children[cur := children[cur].(tokens := children[cur].tokens - 1)]
  }

  /** A send on the initial channel, under the guard of the loop's flag. */
  ghost function SendInitial(s: State, ok: bool): State {
    if s.initialSent then s else s.(initial := s.initial + [ok])
  }

  ghost predicate CanBegin(s: State, step: Beginning) {
    match step
    case Begin => s.pc.NotStarted? && !s.closed
    case CheckContext => s.pc.Top?
    case Spawn => s.pc.Starting?
    case Record => s.pc.Spawned? && s.children != []
    case Probe => s.pc == Probing(false) && !s.cancelled
    case ProbeFails => s.pc == Probing(true)
  }

  ghost function ApplyBeginning(s: State, step: Beginning): State
    requires CanBegin(s, step)
  {
    match step
    case Begin => s.(started := true, pc := Top)
    case CheckContext =>
      if s.cancelled then SendInitial(s, false).(pc := Finished) else s.(pc := Starting)
    case Spawn => s.(pc := Spawned, children := s.children + [Child(true, false, 0, false, false, false)])
    case Record => s.(pc := Probing(false), process := Some(|s.children| - 1))
    case Probe => s.(pc := Probing(true))
    case ProbeFails => s.(pc := Probing(false))
  }

  ghost predicate CanReady(s: State, step: Readiness) {
    match step
    case ProbeOk => s.pc == Probing(true) && s.children != []
    case StreamReady => s.pc.Connecting? && s.children != []
    case ReconcileOk => s.pc.Reconciling? && s.children != []
    case CheckOk => s.pc.Checking? && !ExitPosted(s)
  }

  ghost predicate CanFail(s: State, step: Failure) {
    match step
    case StartFails => s.pc.Starting?
    case Abandon => s.pc.Probing? || s.pc.Connecting? || s.pc.Reconciling? || s.pc.Checking?
    case Reap => s.pc.Reaping? && s.children != []
    case ExitSeen => (s.pc.Probing? || s.pc.Connecting? || s.pc.Checking? || s.pc.AwaitReaped?) && ExitPosted(s)
  }

  ghost function ApplyReadiness(s: State, step: Readiness): State
    requires CanReady(s, step)
  {
    var cur := |s.children| - 1;
    match step
    case ProbeOk => s.(pc := Connecting, children := s.children[cur := s.children[cur].(healthy := true)])
    case StreamReady => s.(pc := Reconciling, children := s.children[cur := s.children[cur].(streaming := true)])
    case ReconcileOk => s.(pc := Checking, children := s.children[cur := s.children[cur].(reconciled := true)])
    case CheckOk => s.(pc := Launched)
  }

  ghost function ApplyFailure(s: State, step: Failure): State
    requires CanFail(s, step)
  {
    match step
    case StartFails => s.(pc := LaunchFailed)
    case Abandon => s.(pc := Reaping)
    case Reap => s.(pc := AwaitReaped, children := Kill(s.children, Some(|s.children| - 1)))
    case ExitSeen => s.(pc := LaunchFailed, children := Consume(s.children))
  }

  ghost predicate CanRecover(s: State, step: Recovery) {
    match step
    case ClearFailed => s.pc.LaunchFailed?
    case Retry | GiveUp => s.pc.LaunchFailedCleared?
    case Resume => s.pc.WaitingAfterFailure? || s.pc.WaitingAfterDown?
    case StopWaiting => (s.pc.WaitingAfterFailure? || s.pc.WaitingAfterDown?) && s.cancelled
  }

  ghost function ApplyRecovery(s: State, step: Recovery): State
    requires CanRecover(s, step)
  {
    match step
    case ClearFailed => s.(pc := LaunchFailedCleared, process := None, client := false)
    case Retry => s.(pc := WaitingAfterFailure, published := s.published + [Unavailable])
    case GiveUp => SendInitial(s, false).(pc := Finished, published := s.published + [Unavailable])
    case Resume => s.(pc := Top)
    case StopWaiting =>
      if s.pc.WaitingAfterFailure? then SendInitial(s, false).(pc := Finished) else s.(pc := Finished)
  }

  ghost predicate CanServe(s: State, step: Service) {
    match step
    case SetClient => s.pc.Launched?
    case Announce => s.pc.Announcing? && s.children != []
    case ExitServed => (s.pc.Serving? || s.pc.AwaitLost?) && ExitPosted(s)
    case LoseStream => s.pc.Serving?
    case KillLost => s.pc.StreamLost? && (s.process.Some? ==> s.process.value < |s.children|)
  }

  ghost function ApplyService(s: State, step: Service): State
    requires CanServe(s, step)
  {
    match step
    case SetClient => s.(pc := Announcing, client := true)
    case Announce =>
      SendInitial(s, true).(pc := Serving, published := s.published + [Available(|s.children| - 1)],
                            initialSent := true)
    case ExitServed => s.(pc := Down, children := Consume(s.children))
    case LoseStream => s.(pc := if s.cancelled then Down else StreamLost)
    case KillLost => s.(pc := AwaitLost, children := Kill(s.children, s.process))
  }

  ghost predicate CanCancel(s: State, step: Cancellation) {
    match step
    case SeeCancel => s.pc.Serving? && s.cancelled
    case KillCancelled => s.pc.Cancelling? && (s.process.Some? ==> s.process.value < |s.children|)
    case CancelledExit => s.pc.AwaitCancelled? && ExitPosted(s)
    case ClearCancelled => s.pc.CancelledExited?
  }

  ghost predicate CanEnd(s: State, step: Ending) {
    match step
    case ClearDown => s.pc.Down?
    case StopCancelled => s.pc.DownCleared? && s.cancelled
    case GiveUpUnstable | RetryAfterDown => s.pc.DownCleared? && !s.cancelled
  }

  ghost function ApplyCancellation(s: State, step: Cancellation): State
    requires CanCancel(s, step)
  {
    match step
    case SeeCancel => s.(pc := Cancelling)
    case KillCancelled => s.(pc := AwaitCancelled, children := Kill(s.children, s.process))
    case CancelledExit => s.(pc := CancelledExited, children := Consume(s.children))
    case ClearCancelled => s.(pc := Finished, process := None, client := false)
  }

  ghost function ApplyEnding(s: State, step: Ending): State
    requires CanEnd(s, step)
  {
    match step
    case ClearDown => s.(pc := DownCleared, process := None, client := false)
    case StopCancelled => s.(pc := Finished)
    case GiveUpUnstable => s.(pc := Finished, published := s.published + [Unavailable])
    case RetryAfterDown => s.(pc := WaitingAfterDown, published := s.published + [Unavailable])
  }

  ghost predicate CanHappen(s: State, step: Environment) {
    match step
    case Exit(i) => i < |s.children| && s.children[i].alive
    case CloseTake => s.closer.Idle? && !s.closed
    case CloseKill => s.closer.Taken? && (s.taken.Some? ==> s.taken.value < |s.children|)
    case CloseFinish => s.closer.Killed? && (s.pc.Finished? || !s.started)
    case CloseAgain => s.closed
  }

  ghost function ApplyEnvironment(s: State, step: Environment): State
    requires CanHappen(s, step)
  {
    match step
    case Exit(i) => s.(children := s.children[i := s.children[i].(alive := false, tokens := 2)])
    case CloseTake => s.(closed := true, cancelled := s.started, closer := Taken, taken := s.process)
    case CloseKill => s.(closer := Killed, children := Kill(s.children, s.taken))
    case CloseFinish => s.(closer := Closed, process := None, client := false, closes := s.closes + 1)
    case CloseAgain => s.(closes := s.closes + 1)
  }

  ghost predicate Enabled(s: State, step: Step) {
    match step
    case Begins(b) => CanBegin(s, b)
    case Readies(r) => CanReady(s, r)
    case Fails(f) => CanFail(s, f)
    case Recovers(c) => CanRecover(s, c)
    case Serves(v) => CanServe(s, v)
    case Cancels(n) => CanCancel(s, n)
    case Ends(e) => CanEnd(s, e)
    case Outside(o) => CanHappen(s, o)
  }

  ghost function Apply(s: State, step: Step): State
    requires Enabled(s, step)
  {
    match step
    case Begins(b) => ApplyBeginning(s, b)
    case Readies(r) => ApplyReadiness(s, r)
    case Fails(f) => ApplyFailure(s, f)
    case Recovers(c) => ApplyRecovery(s, c)
    case Serves(v) => ApplyService(s, v)
    case Cancels(n) => ApplyCancellation(s, n)
    case Ends(e) => ApplyEnding(s, e)
    case Outside(o) => ApplyEnvironment(s, o)
  }

  ghost predicate Run(s: State, steps: seq<Step>, end: State)
    decreases steps
  {
    if steps == [] then end == s
    else Enabled(s, steps[0]) && Run(Apply(s, steps[0]), steps[1..], end)
  }

  // ---------------------------------------------------------------- the guarantees

  /** At most one child is alive: only the newest can be. */
  ghost predicate OneChild(s: State) {
    forall i :: 0 <= i < |s.children| - 1 ==> !s.children[i].alive
  }

  ghost predicate AllExited(s: State) {
    forall i :: 0 <= i < |s.children| ==> !s.children[i].alive
  }

  /** Availability is announced only for generations that passed all three readiness checks. */
  ghost predicate AnnouncedReady(s: State) {
    forall a :: a in s.published && a.Available? ==>
      a.generation < |s.children| && s.children[a.generation].healthy && s.children[a.generation].streaming
      && s.children[a.generation].reconciled
  }

  /** The initial channel receives at most one value, and exactly one by the end of the run. */
  ghost predicate OneInitial(s: State) {
    |s.initial| <= 1 && (s.pc.Finished? ==> |s.initial| == 1)
  }

  /** The run loop is over, or never began, and every child has exited or been killed. */
  ghost predicate Stopped(s: State) {
    (s.pc.Finished? || !s.started) && forall i :: 0 <= i < |s.children| ==> !s.children[i].alive || s.children[i].killed
  }

  /** Once the first Close has finished, everything is stopped. */
  ghost predicate ClosedLeavesNothing(s: State) {
    s.closer.Closed? ==> Stopped(s)
  }

  /** A receive from processDone that the loop commits to always ends: the exit result is there, or
      the child is still alive under a kill. */
  ghost predicate ExitWillBeSeen(s: State) {
    s.pc.AwaitReaped? || s.pc.AwaitLost? || s.pc.AwaitCancelled? ==>
      s.children != [] && var c := s.children[|s.children| - 1]; c.killed && (c.alive || c.tokens > 0)
  }

  // ---------------------------------------------------------------- why they hold

  /** The loop is between generations: nothing it started can be alive. */
  predicate Between(pc: Pc) {
    pc.NotStarted? || pc.Top? || pc.Starting? || pc.LaunchFailed? || pc.LaunchFailedCleared?
    || pc.WaitingAfterFailure? || pc.WaitingAfterDown? || pc.CancelledExited?
  }

  /** The generation is over for the loop; a child may survive only if Close is about to kill it. */
  predicate Over(pc: Pc) {
    pc.Down? || pc.DownCleared? || pc.Finished?
  }

  /** The loop has seen evidence that the context was live after s.process was set. */
  predicate PastProbe(pc: Pc) {
    pc == Probing(true) || pc.Connecting? || pc.Reconciling? || pc.Checking? || pc.Launched? || pc.Announcing?
    || pc.Serving? || pc.StreamLost? || pc.AwaitLost? || pc.Cancelling? || pc.AwaitCancelled?
  }

  /** Nothing has been received from the current child's processDone channel yet. */
  ghost predicate Unconsumed(s: State) {
    s.children != [] && var c := s.children[|s.children| - 1]; if c.alive then c.tokens == 0 else c.tokens == 2
  }

  ghost predicate ProcessInv(s: State) {
    && OneChild(s)
    && (Between(s.pc) ==> AllExited(s))
    && (Over(s.pc) ==> AllExited(s) || (s.cancelled && s.children != [] && s.taken == Some(|s.children| - 1)))
    && (!Between(s.pc) && !Over(s.pc) ==> Unconsumed(s))
    && (!Between(s.pc) && !Over(s.pc) && !s.pc.Spawned? ==> s.process == Some(|s.children| - 1))
    && (s.process.Some? ==> s.process.value < |s.children|)
    && (s.pc.AwaitReaped? || s.pc.AwaitLost? || s.pc.AwaitCancelled? ==> s.children[|s.children| - 1].killed)
    && (s.pc.NotStarted? <==> !s.started) && (s.pc.NotStarted? ==> s.children == [])
  }

  ghost predicate CloseInv(s: State) {
    && (s.closed <==> !s.closer.Idle?) && (s.cancelled ==> s.closed && s.started)
    && (s.started && s.closed ==> s.cancelled)
    && (s.cancelled && PastProbe(s.pc) ==> s.taken == Some(|s.children| - 1))
    && (s.taken.Some? ==> s.taken.value < |s.children|)
    && (s.closer.Killed? || s.closer.Closed? ==> s.taken.Some? ==> s.children[s.taken.value].killed)
    && (s.closer.Closed? ==> s.pc.Finished? || !s.started)
  }

  ghost predicate ReadyInv(s: State) {
    && AnnouncedReady(s)
    && (s.children != [] ==>
          var c := s.children[|s.children| - 1];
          && (s.pc.Connecting? || s.pc.Reconciling? || s.pc.Checking? || s.pc.Launched? || s.pc.Announcing? ==>
                c.healthy)
          && (s.pc.Reconciling? || s.pc.Checking? || s.pc.Launched? || s.pc.Announcing? ==> c.streaming)
          && (s.pc.Checking? || s.pc.Launched? || s.pc.Announcing? ==> c.reconciled))
  }

  predicate Announced(pc: Pc) {
    pc.Serving? || pc.StreamLost? || pc.AwaitLost? || pc.Cancelling? || pc.AwaitCancelled? || pc.CancelledExited?
    || Over(pc) || pc.WaitingAfterDown?
  }

  /** The loop has sent the success exactly if its flag says so, and an error only by returning at once. */
  ghost predicate InitialInv(s: State) {
    && |s.initial| == (if s.initialSent || s.pc.Finished? then 1 else 0)
    && (Announced(s.pc) && !s.pc.Finished? ==> s.initialSent)
  }

  ghost predicate Inv(s: State) {
    ProcessInv(s) && CloseInv(s) && ReadyInv(s) && InitialInv(s)
  }

  lemma BeginningKeepsProcess(s: State, step: Beginning)
    requires ProcessInv(s) && CloseInv(s) && CanBegin(s, step)
    ensures ProcessInv(ApplyBeginning(s, step))
  {}

  lemma BeginningKeepsRest(s: State, step: Beginning)
    requires Inv(s) && CanBegin(s, step)
    ensures CloseInv(ApplyBeginning(s, step)) && ReadyInv(ApplyBeginning(s, step))
            && InitialInv(ApplyBeginning(s, step))
  {}

  lemma ReadinessKeepsProcess(s: State, step: Readiness)
    requires ProcessInv(s) && CloseInv(s) && CanReady(s, step)
    ensures ProcessInv(ApplyReadiness(s, step))
  {}

  lemma ReadinessKeepsRest(s: State, step: Readiness)
    requires Inv(s) && CanReady(s, step)
    ensures CloseInv(ApplyReadiness(s, step)) && ReadyInv(ApplyReadiness(s, step))
            && InitialInv(ApplyReadiness(s, step))
  {}

  lemma FailureKeepsProcess(s: State, step: Failure)
    requires ProcessInv(s) && CloseInv(s) && CanFail(s, step)
    ensures ProcessInv(ApplyFailure(s, step))
  {}

  lemma FailureKeepsRest(s: State, step: Failure)
    requires Inv(s) && CanFail(s, step)
    ensures CloseInv(ApplyFailure(s, step)) && ReadyInv(ApplyFailure(s, step)) && InitialInv(ApplyFailure(s, step))
  {}

  lemma RecoveryKeepsProcess(s: State, step: Recovery)
    requires ProcessInv(s) && CloseInv(s) && CanRecover(s, step)
    ensures ProcessInv(ApplyRecovery(s, step))
  {}

  lemma RecoveryKeepsRest(s: State, step: Recovery)
    requires Inv(s) && CanRecover(s, step)
    ensures CloseInv(ApplyRecovery(s, step)) && ReadyInv(ApplyRecovery(s, step)) && InitialInv(ApplyRecovery(s, step))
  {}

  lemma ServiceKeepsProcess(s: State, step: Service)
    requires ProcessInv(s) && CloseInv(s) && CanServe(s, step)
    ensures ProcessInv(ApplyService(s, step))
  {
    if step.ExitServed? { ExitKeepsProcess(s); }
  }

  lemma ExitKeepsProcess(s: State)
    requires ProcessInv(s) && CanServe(s, ExitServed)
    ensures ProcessInv(ApplyService(s, ExitServed))
  {}

  lemma ServiceKeepsRest(s: State, step: Service)
    requires Inv(s) && CanServe(s, step)
    ensures CloseInv(ApplyService(s, step)) && ReadyInv(ApplyService(s, step)) && InitialInv(ApplyService(s, step))
  {}

  lemma CancellationKeepsProcess(s: State, step: Cancellation)
    requires ProcessInv(s) && CloseInv(s) && CanCancel(s, step)
    ensures ProcessInv(ApplyCancellation(s, step))
  {}

  lemma CancellationKeepsRest(s: State, step: Cancellation)
    requires Inv(s) && CanCancel(s, step)
    ensures CloseInv(ApplyCancellation(s, step)) && ReadyInv(ApplyCancellation(s, step))
            && InitialInv(ApplyCancellation(s, step))
  {}

  lemma EndingKeepsProcess(s: State, step: Ending)
    requires ProcessInv(s) && CloseInv(s) && CanEnd(s, step)
    ensures ProcessInv(ApplyEnding(s, step))
  {}

  lemma EndingKeepsRest(s: State, step: Ending)
    requires Inv(s) && CanEnd(s, step)
    ensures CloseInv(ApplyEnding(s, step)) && ReadyInv(ApplyEnding(s, step)) && InitialInv(ApplyEnding(s, step))
  {}

  lemma EnvironmentKeepsProcess(s: State, step: Environment)
    requires ProcessInv(s) && CloseInv(s) && CanHappen(s, step)
    ensures ProcessInv(ApplyEnvironment(s, step))
  {}

  lemma EnvironmentKeepsRest(s: State, step: Environment)
    requires Inv(s) && CanHappen(s, step)
    ensures CloseInv(ApplyEnvironment(s, step)) && ReadyInv(ApplyEnvironment(s, step))
            && InitialInv(ApplyEnvironment(s, step))
  {}

  lemma StepKeepsInv(s: State, step: Step)
    requires Inv(s) && Enabled(s, step)
    ensures Inv(Apply(s, step))
  {
    match step
    case Begins(b) => BeginningKeepsProcess(s, b); BeginningKeepsRest(s, b);
    case Readies(r) => ReadinessKeepsProcess(s, r); ReadinessKeepsRest(s, r);
    case Fails(f) => FailureKeepsProcess(s, f); FailureKeepsRest(s, f);
    case Recovers(c) => RecoveryKeepsProcess(s, c); RecoveryKeepsRest(s, c);
    case Serves(v) => ServiceKeepsProcess(s, v); ServiceKeepsRest(s, v);
    case Cancels(n) => CancellationKeepsProcess(s, n); CancellationKeepsRest(s, n);
    case Ends(e) => EndingKeepsProcess(s, e); EndingKeepsRest(s, e);
    case Outside(o) => EnvironmentKeepsProcess(s, o); EnvironmentKeepsRest(s, o);
  }

  lemma {:induction false} RunKeepsInv(s: State, steps: seq<Step>, end: State)
    requires Inv(s) && Run(s, steps, end)
    ensures Inv(end)
    decreases steps
  {
    if steps != [] {
      StepKeepsInv(s, steps[0]);
      RunKeepsInv(Apply(s, steps[0]), steps[1..], end);
    }
  }

  /** Main result: the guarantees hold after every run, wherever Close falls in it. */
  lemma EveryRunIsSafe(steps: seq<Step>, s: State)
    requires Run(Initial, steps, s)
    ensures OneChild(s) && AnnouncedReady(s) && OneInitial(s) && ClosedLeavesNothing(s) && ExitWillBeSeen(s)
    ensures Enabled(s, Begins(Spawn)) ==> AllExited(s)
  {
    RunKeepsInv(Initial, steps, s);
  }

  // ---------------------------------------------------------------- what a returning Close may rely on

  ghost predicate Reachable(s: State) {
    exists steps :: Run(Initial, steps, s)
  }

  /** What holds whenever a Close returns in a state in which the first Close has got this far. */
  ghost predicate ReturnMeansStopped(phase: Closer) {
    forall s :: Reachable(s) && s.closer == phase ==> Stopped(s)
  }

  /** A Close that returns can rely on everything being stopped if and only if it was the first, which
      returns by finishing, or the first has finished: a later one returns at once, and while the first
      is still at work a child may be alive and not even killed. */
  lemma OnlyAFinishedCloseStops(phase: Closer)
    requires !phase.Idle?
    ensures ReturnMeansStopped(phase) <==> phase.Closed?
    ensures forall s :: Reachable(s) && Enabled(s, Outside(CloseFinish)) ==> Stopped(Apply(s, Outside(CloseFinish)))
  {
    forall s | Reachable(s) && s.closer.Closed? ensures Stopped(s) {
      var steps :| Run(Initial, steps, s);
      EveryRunIsSafe(steps, s);
    }
    forall s | Reachable(s) && Enabled(s, Outside(CloseFinish)) ensures Stopped(Apply(s, Outside(CloseFinish))) {
      var steps :| Run(Initial, steps, s);
      RunKeepsInv(Initial, steps, s);
      StepKeepsInv(s, Outside(CloseFinish));
    }
    var s, t := CloseReturnsEarly();
  }

  lemma {:induction false} RunThenStep(s: State, steps: seq<Step>, mid: State, step: Step)
    requires Run(s, steps, mid) && Enabled(mid, step)
    ensures Run(s, steps + [step], Apply(mid, step))
    decreases steps
  {
    if steps == [] {
      assert [] + [step] == [step] && [step][1..] == [] && Run(Apply(mid, step), [], Apply(mid, step));
    } else {
      assert (steps + [step])[1..] == steps[1..] + [step];
      RunThenStep(Apply(s, steps[0]), steps[1..], mid, step);
    }
  }

  lemma ReachableStep(s: State, step: Step)
    requires Reachable(s) && Enabled(s, step)
    ensures Reachable(Apply(s, step))
  {
    var steps :| Run(Initial, steps, s);
    RunThenStep(Initial, steps, s, step);
  }

  /** A loop that has just started a child and not recorded it yet. */
  lemma JustSpawned() returns (s: State)
    ensures Reachable(s) && s.pc.Spawned? && s.children == [Child(true, false, 0, false, false, false)]
    ensures s.started && !s.closed && s.closer.Idle? && s.process.None? && s.closes == 0
  {
    assert Run(Initial, [], Initial);
    ReachableStep(Initial, Begins(Begin));
    s := Apply(Initial, Begins(Begin));
    ReachableStep(s, Begins(CheckContext));
    s := Apply(s, Begins(CheckContext));
    ReachableStep(s, Begins(Spawn));
    s := Apply(s, Begins(Spawn));
  }

  /** Runs in which a second Close returns too early: before the first has looked at the child, and after. */
  lemma CloseReturnsEarly() returns (s: State, t: State)
    ensures Reachable(s) && s.closer.Taken? && s.closes == 1 && !Stopped(s)
    ensures Reachable(t) && t.closer.Killed? && t.closes == 2 && !Stopped(t)
  {
    s := JustSpawned();
    ReachableStep(s, Outside(CloseTake));
    s := Apply(s, Outside(CloseTake));
    ReachableStep(s, Outside(CloseAgain));
    s := Apply(s, Outside(CloseAgain));
    ReachableStep(s, Outside(CloseKill));
    t := Apply(s, Outside(CloseKill));
    ReachableStep(t, Outside(CloseAgain));
    t := Apply(t, Outside(CloseAgain));
  }

  /** And then nothing is ever started again. */
  lemma {:induction false} StoppedForGood(s: State, steps: seq<Step>, end: State)
    requires Inv(s) && s.closer.Closed? && Run(s, steps, end)
    ensures end.closer.Closed? && |end.children| == |s.children| && end.published == s.published
    decreases steps
  {
    if steps != [] {
      StepKeepsInv(s, steps[0]);
      StoppedForGood(Apply(s, steps[0]), steps[1..], end);
    }
  }

  // ---------------------------------------------------------------- the supervisor itself

  /** The fields behind the mutex. Each method is a critical section of Start, launch, run or Close, so
      any interleaving of calls with the other steps is a run. */
  class Supervisor {
    var process: Option<nat>
    var client: bool
    var started: bool
    var closed: bool
    var cancelled: bool
    ghost var pc: Pc
    ghost var children: seq<Child>
    ghost var closer: Closer
    ghost var taken: Option<nat>
    ghost var closes: nat
    ghost var initialSent: bool
    ghost var initial: seq<bool>
    ghost var published: seq<Announcement>

    ghost function Abs(): State
      reads this
    {
      State(pc, children, process, client, started, closed, cancelled, closer, taken, closes, initialSent, initial,
            published)
    }

    constructor ()
      ensures Abs() == Initial
    {
      process, client, started, closed, cancelled := None, false, false, false, false;
      pc, children, closer, taken, initial, published := NotStarted, [], Idle, None, [], [];
      closes, initialSent := 0, false;
    }

    /** Start: only the first caller, and only before Close, starts the loop. */
    method Start() returns (run: bool)
      requires started <==> !pc.NotStarted?
      modifies this
      ensures run <==> CanBegin(old(Abs()), Begin)
      ensures Abs() == if run then ApplyBeginning(old(Abs()), Begin) else old(Abs())
    {
      if closed || started {
        return false;
      }
      started, pc := true, Top;
      return true;
    }

    /** launch: publish the child it has just started. */
    method RecordProcess(generation: nat)
      requires CanBegin(Abs(), Record) && generation == |children| - 1
      modifies this
      ensures Abs() == ApplyBeginning(old(Abs()), Record)
    {
      process, pc := Some(generation), Probing(false);
    }

    method ClearAfterFailure()
      requires CanRecover(Abs(), ClearFailed)
      modifies this
      ensures Abs() == ApplyRecovery(old(Abs()), ClearFailed)
    {
      process, client, pc := None, false, LaunchFailedCleared;
    }

    method SetClient()
      requires CanServe(Abs(), Service.SetClient)
      modifies this
      ensures Abs() == ApplyService(old(Abs()), Service.SetClient)
    {
      client, pc := true, Announcing;
    }

    /** run, once the generation has ended by itself, or by cancellation. */
    method ClearAfterService(byCancellation: bool)
      requires if byCancellation then CanCancel(Abs(), ClearCancelled) else CanEnd(Abs(), ClearDown)
      modifies this
      ensures byCancellation ==> Abs() == ApplyCancellation(old(Abs()), ClearCancelled)
      ensures !byCancellation ==> Abs() == ApplyEnding(old(Abs()), ClearDown)
    {
      process, client := None, false;
      pc := if byCancellation then Finished else DownCleared;
    }

    /** Close's first critical section: cancel the loop, and see which child there is to kill. */
    method CloseBegins() returns (first: bool, target: Option<nat>)
      requires closed <==> !closer.Idle?
      modifies this
      ensures first <==> CanHappen(old(Abs()), CloseTake)
      ensures first ==> Abs() == ApplyEnvironment(old(Abs()), CloseTake)
      ensures !first ==> CanHappen(old(Abs()), CloseAgain) && Abs() == ApplyEnvironment(old(Abs()), CloseAgain)
      ensures first ==> target == taken
    {
      if closed {
        closes := closes + 1;
        return false, None;
      }
      closed, cancelled := true, started;
      closer, taken := Taken, process;
      return true, process;
    }

    /** Its last one, after the loop has ended. */
    method CloseEnds()
      requires CanHappen(Abs(), CloseFinish)
      modifies this
      ensures Abs() == ApplyEnvironment(old(Abs()), CloseFinish)
    {
      process, client, closer := None, false, Closed;
      closes := closes + 1;
    }
  }
}
