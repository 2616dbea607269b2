/** The Claude worker of internal/claude/worker.go: prompts, aborts, the stream reader, convergence
    goroutines, the process waiter and Close interleave over one mutex and one write mutex. A step is
    one critical section, one write of a frame, or one channel send. */
module ClaudeWorker {

  datatype Status = Idle | Running | Error

  /** A frame written to the child's stdin, or lost to a failing write: the prompt of a turn, or an
      interrupt accepted during a turn. */
  datatype Frame = User(turn: nat, delivered: bool) | Interrupt(id: nat, turn: nat, delivered: bool)

  /** Who owns the write mutex: nobody, a prompt that has not published its turn yet, or a prompt
      about to write the frame of its turn. */
  datatype Writer = Free | Prompting | Writing(turn: nat)

  datatype State = State(
    status: Status, turnSeq: nat, initialized: bool, converging: bool, fatal: bool, closing: bool,
    writer: Writer, log: seq<Frame>,
    controlSeq: nat, accepted: map<nat, nat>,  // per interrupt id: the turn it was accepted in
    controls: set<nat>,                        // ids in the control table
    delivering: set<nat>,                      // taken from the table, result not sent yet
    withdrawn: set<nat>,                       // removed by their own Abort
    results: map<nat, nat>,                    // values sent on each control channel
    unsent: set<nat>,                          // accepted interrupts whose frame is not written yet
    convergers: set<nat>, spawned: set<nat>,   // generations with a convergence goroutine, now and ever
    previews: seq<nat>,                        // generations whose Done preview was produced
    initSends: nat)

  datatype Step =
    | Turns(t: TurnStep) | Controls(c: ControlStep) | Stops(x: StopStep)

  datatype TurnStep =
    | LockWrite                 // Prompt takes the write mutex
    | Publish                   // Prompt's critical section: reject, or start a turn
    | WriteUser(ok: bool)       // Prompt's write and release of the write mutex
    | Init                      // handleInit's critical section
    | Result                    // handleResult's critical section, starting a convergence goroutine
    | FinishTurn(generation: nat)

  datatype ControlStep =
    | Accept                    // Abort's critical section
    | WriteInterrupt(id: nat, ok: bool)  // Abort's write under the write mutex
    | TakeControl(id: nat)      // handleControlResponse's critical section
    | Deliver(id: nat)          // its send, outside the mutex
    | Withdraw(id: nat)         // removeControl after a failed write or a timeout

  datatype StopStep =
    | Fatal                     // protocolError's critical section
    | Close                     // Close's critical section
    | InitOnce                  // the guarded send on the initialization channel

  const Initial := State(Idle, 0, false, false, false, false, Free, [], 0, map[], {}, {}, {}, map[], {}, {}, {}, [], 0)

  ghost predicate CanTurn(s: State, step: TurnStep) {
    match step
    case LockWrite => s.writer.Free?
    case Publish => s.writer.Prompting?
    case WriteUser(_) => s.writer.Writing?
    case Init => s.status.Running?
    case Result => !s.converging
    case FinishTurn(g) => g in s.convergers
  }

  ghost function ApplyTurn(s: State, step: TurnStep): State
    requires CanTurn(s, step)
  {
    match step
    case LockWrite => s.(writer := Prompting)
    case Publish =>
      if s.fatal || s.closing || s.status.Running? then s.(writer := Free)
      else s.(writer := Writing(s.turnSeq + 1), turnSeq := s.turnSeq + 1, converging := false, status := Running)
    case WriteUser(ok) => s.(writer := Free, log := s.log + [User(s.writer.turn, ok)])
    case Init => s.(initialized := true)
    case Result =>
      s.(converging := true, convergers := s.convergers + {s.turnSeq}, spawned := s.spawned + {s.turnSeq})
    case FinishTurn(g) =>
      var s := s.(convergers := s.convergers - {g});
      if s.closing || s.fatal || g != s.turnSeq then s
      else s.(status := Idle, previews := s.previews + [g])
  }

  ghost predicate CanControl(s: State, step: ControlStep) {
    match step
    case Accept => s.status.Running? && !s.fatal && !s.closing
    case WriteInterrupt(id, _) => s.writer.Free? && id in s.unsent && id in s.accepted
    case TakeControl(id) => id in s.controls
    case Deliver(id) => id in s.delivering
    case Withdraw(id) => id in s.accepted && id !in s.withdrawn
  }

  function Sent(results: map<nat, nat>, id: nat): nat {
    if id in results then results[id] else 0
  }

  ghost function ApplyControl(s: State, step: ControlStep): State
    requires CanControl(s, step)
  {
    match step
    case Accept =>
      var id := s.controlSeq + 1;
      s.(controlSeq := id, accepted := s.accepted[id := s.turnSeq], controls := s.controls + {id},
         unsent := s.unsent + {id})
    case WriteInterrupt(id, ok) =>
      s.(unsent := s.unsent - {id}, log := s.log + [Interrupt(id, s.accepted[id], ok)])
    case TakeControl(id) => s.(controls := s.controls - {id}, delivering := s.delivering + {id})
    case Deliver(id) => s.(delivering := s.delivering - {id}, results := s.results[id := Sent(s.results, id) + 1])
    case Withdraw(id) => s.(controls := s.controls - {id}, unsent := s.unsent - {id}, withdrawn := s.withdrawn + {id})
  }

  /** Every open control channel receives one value; the table ends empty. */
  ghost function FailPending(results: map<nat, nat>, controls: set<nat>): map<nat, nat> {
    map id | id in results.Keys + controls :: Sent(results, id) + if id in controls then 1 else 0
  }

  ghost predicate CanStop(s: State, step: StopStep) {
    true
  }

  ghost function ApplyStop(s: State, step: StopStep): State {
    match step
    case Fatal =>
      if s.fatal || s.closing then s
      else s.(fatal := true, status := Error, results := FailPending(s.results, s.controls), controls := {})
    case Close =>
      if s.closing then s
      else s.(closing := true, results := FailPending(s.results, s.controls), controls := {})
    case InitOnce => s.(initSends := if s.initSends == 0 then 1 else s.initSends)
  }

  ghost predicate Enabled(s: State, step: Step) {
    match step
    case Turns(t) => CanTurn(s, t)
    case Controls(c) => CanControl(s, c)
    case Stops(x) => CanStop(s, x)
  }

  ghost function Apply(s: State, step: Step): State
    requires Enabled(s, step)
  {
    match step
    case Turns(t) => ApplyTurn(s, t)
    case Controls(c) => ApplyControl(s, c)
    case Stops(x) => ApplyStop(s, x)
  }

  ghost predicate Run(s: State, steps: seq<Step>, end: State)
    decreases steps
  {
    if steps == [] then end == s
    else Enabled(s, steps[0]) && Run(Apply(s, steps[0]), steps[1..], end)
  }

  // ---------------------------------------------------------------- the guarantees

  /** Each turn generation produces at most one Done preview, and generations finish in order. */
  ghost predicate OneDonePerTurn(s: State) {
    && (forall i, j :: 0 <= i < j < |s.previews| ==> s.previews[i] < s.previews[j])
    && (forall i :: 0 <= i < |s.previews| ==> s.previews[i] <= s.turnSeq)
  }

  /** After a fatal error or Close the control table is empty, and stays so. */
  ghost predicate StoppedIsEmpty(s: State) {
    (s.fatal || s.closing ==> s.controls == {}) && (s.fatal ==> s.status.Error?)
  }

  /** No channel of capacity one receives a second value, so no send can block. */
  ghost predicate SendsNeverBlock(s: State) {
    s.initSends <= 1 && forall id :: Sent(s.results, id) <= 1
  }

  /** Every accepted interrupt is in the table, or is being answered, or was answered, or was given
      up by its own Abort: nobody waits on a channel that nobody will write to. */
  ghost predicate NobodyForgotten(s: State) {
    forall id :: id in s.accepted ==>
      id in s.controls || id in s.delivering || Sent(s.results, id) == 1 || id in s.withdrawn
  }

  ghost predicate Prompted(log: seq<Frame>, turn: nat) {
    User(turn, true) in log || User(turn, false) in log
  }

  ghost predicate AfterPrompts(log: seq<Frame>) {
    forall i :: 0 <= i < |log| && log[i].Interrupt? ==> Prompted(log[..i], log[i].turn)
  }

  /** Every interrupt frame comes after the user frame of the turn it was accepted for, and that frame
      was delivered if and only if its write did not fail. */
  ghost predicate InterruptsFollowPrompts(s: State) {
    && AfterPrompts(s.log)
    && forall i :: 0 <= i < |s.log| && s.log[i].Interrupt? ==>
         (User(s.log[i].turn, true) in s.log[..i] <==> User(s.log[i].turn, false) !in s.log)
  }

  /** Prompts are written in the order of their turns, one for each. */
  ghost predicate PromptsAscend(log: seq<Frame>) {
    forall i, j :: 0 <= i < j < |log| && log[i].User? && log[j].User? ==> log[i].turn < log[j].turn
  }

  // ---------------------------------------------------------------- why they hold

  ghost predicate TurnInv(s: State) {
    && OneDonePerTurn(s)
    && s.convergers <= s.spawned
    && (forall g :: g in s.spawned ==> g <= s.turnSeq && (g == s.turnSeq ==> s.converging))
    && (forall i :: 0 <= i < |s.previews| ==> s.previews[i] in s.spawned && s.previews[i] !in s.convergers)
  }

  ghost predicate ControlInv(s: State) {
    && StoppedIsEmpty(s) && SendsNeverBlock(s) && NobodyForgotten(s)
    && s.controls <= s.accepted.Keys && s.delivering <= s.accepted.Keys && s.unsent <= s.accepted.Keys
    && s.controls !! s.delivering && s.results.Keys <= s.accepted.Keys
    && (forall id :: id in s.controls || id in s.delivering ==> Sent(s.results, id) == 0)
    && (forall id :: id in s.accepted ==> id <= s.controlSeq)
  }

  /** The frame of `turn` was written, or its prompt owns the stream and is about to write it. */
  ghost predicate Announced(s: State, turn: nat) {
    Prompted(s.log, turn) || s.writer == Writing(turn)
  }

  ghost predicate FrameInv(s: State) {
    && AfterPrompts(s.log) && PromptsAscend(s.log)
    && (forall i :: 0 <= i < |s.log| && s.log[i].User? ==> s.log[i].turn <= s.turnSeq)
    && (s.writer.Writing? ==>
          && s.writer.turn == s.turnSeq
          && forall i :: 0 <= i < |s.log| && s.log[i].User? ==> s.log[i].turn < s.turnSeq)
    && (s.status.Running? || s.turnSeq > 0 ==> Announced(s, s.turnSeq))
    && (forall id :: id in s.accepted ==> Announced(s, s.accepted[id]))
  }

  ghost predicate Inv(s: State) {
    TurnInv(s) && ControlInv(s) && FrameInv(s)
  }

  lemma TurnKeepsTurns(s: State, step: TurnStep)
    requires TurnInv(s) && CanTurn(s, step)
    ensures TurnInv(ApplyTurn(s, step))
  {}

  lemma LogGrows(log: seq<Frame>, frame: Frame)
    requires AfterPrompts(log) && (frame.Interrupt? ==> Prompted(log, frame.turn))
    ensures AfterPrompts(log + [frame])
  {
    forall i | 0 <= i <= |log| ensures (log + [frame])[..i] == log[..i] {}
    assert log[..|log|] == log;
  }

  /** A turn has one prompt, so an interrupt that follows it follows all there is of it. */
  lemma OnePrompt(log: seq<Frame>, i: nat)
    requires AfterPrompts(log) && PromptsAscend(log) && i < |log| && log[i].Interrupt?
    ensures User(log[i].turn, true) in log[..i] <==> User(log[i].turn, false) !in log
  {
    var turn := log[i].turn;
    assert Prompted(log[..i], turn);
    if User(turn, true) in log[..i] {
      var j :| 0 <= j < i && log[..i][j] == User(turn, true);
      forall k | 0 <= k < |log| ensures log[k] != User(turn, false) { assert log[j].turn == turn; }
    }
  }

  /** The control table is apart from the turns. */
  lemma SameControls(s: State, s': State)
    requires ControlInv(s) && (s.fatal ==> s'.status.Error?)
    requires s' == s.(writer := s'.writer, turnSeq := s'.turnSeq, converging := s'.converging, status := s'.status,
                      log := s'.log, initialized := s'.initialized, convergers := s'.convergers,
                      spawned := s'.spawned, previews := s'.previews)
    ensures ControlInv(s')
  {}

  lemma TurnKeepsControls(s: State, step: TurnStep)
    requires ControlInv(s) && CanTurn(s, step)
    ensures ControlInv(ApplyTurn(s, step))
  {
    SameControls(s, ApplyTurn(s, step));
  }

  lemma TurnKeepsFrames(s: State, step: TurnStep)
    requires FrameInv(s) && CanTurn(s, step)
    ensures FrameInv(ApplyTurn(s, step))
  {
    var s' := ApplyTurn(s, step);
    if step.WriteUser? { LogGrows(s.log, User(s.writer.turn, step.ok)); }
    forall turn | Announced(s, turn) ensures Announced(s', turn) {}
  }

  lemma ControlKeepsControls(s: State, step: ControlStep)
    requires ControlInv(s) && CanControl(s, step)
    ensures ControlInv(ApplyControl(s, step))
  {
    var s' := ApplyControl(s, step);
    forall id ensures Sent(s'.results, id) == Sent(s.results, id) + if step == Deliver(id) then 1 else 0 {}
    forall id | id in s.controls || id in s.delivering ensures Sent(s.results, id) == 0 {}
  }

  lemma ControlKeepsRest(s: State, step: ControlStep)
    requires TurnInv(s) && ControlInv(s) && FrameInv(s) && CanControl(s, step)
    ensures TurnInv(ApplyControl(s, step)) && FrameInv(ApplyControl(s, step))
  {
    if step.WriteInterrupt? {
      assert Announced(s, s.accepted[step.id]);
      LogGrows(s.log, Interrupt(step.id, s.accepted[step.id], step.ok));
    }
  }

  lemma StopKeepsControls(s: State, step: StopStep)
    requires ControlInv(s)
    ensures ControlInv(ApplyStop(s, step))
  {
    var s', failed := ApplyStop(s, step), FailPending(s.results, s.controls);
    forall id ensures Sent(failed, id) == Sent(s.results, id) + if id in s.controls then 1 else 0 {}
  }

  lemma StopKeepsInv(s: State, step: StopStep)
    requires Inv(s)
    ensures Inv(ApplyStop(s, step))
  {
    StopKeepsControls(s, step);
    forall turn | Announced(s, turn) ensures Announced(ApplyStop(s, step), turn) {}
  }

  lemma StepKeepsInv(s: State, step: Step)
    requires Inv(s) && Enabled(s, step)
    ensures Inv(Apply(s, step))
  {
    match step
    case Turns(t) => TurnKeepsTurns(s, t); TurnKeepsControls(s, t); TurnKeepsFrames(s, t);
    case Controls(c) => ControlKeepsControls(s, c); ControlKeepsRest(s, c);
    case Stops(x) => StopKeepsInv(s, x);
  }

  lemma {:induction false} RunKeepsInv(s: State, steps: seq<Step>, end: State)
    requires Inv(s) && Run(s, steps, end)
    ensures Inv(end)
    decreases steps
  {
    if steps != [] {
      StepKeepsInv(s, steps[0]);
      RunKeepsInv(Apply(s, steps[0]), steps[1..], end);
    }
  }

  /** Main result: the guarantees hold after every run of the worker. */
  lemma EveryRunIsSafe(steps: seq<Step>, s: State)
    requires Run(Initial, steps, s)
    ensures OneDonePerTurn(s) && StoppedIsEmpty(s) && SendsNeverBlock(s)
    ensures NobodyForgotten(s) && InterruptsFollowPrompts(s)
  {
    RunKeepsInv(Initial, steps, s);
    forall i | 0 <= i < |s.log| && s.log[i].Interrupt?
      ensures User(s.log[i].turn, true) in s.log[..i] <==> User(s.log[i].turn, false) !in s.log
    {
      OnePrompt(s.log, i);
    }
  }

  // ---------------------------------------------------------------- interrupts that come too late

  /** No interrupt frame comes after the prompt of a later turn than its own. */
  ghost predicate InterruptsInTime(log: seq<Frame>) {
    forall i, j :: 0 <= i < j < |log| && log[i].User? && log[j].Interrupt? ==> log[i].turn <= log[j].turn
  }

  /** If the step writes an interrupt, no turn was published since it was accepted. */
  ghost predicate InTime(s: State, step: Step)
    requires Enabled(s, step)
  {
    step.Controls? && step.c.WriteInterrupt? ==> s.accepted[step.c.id] == s.turnSeq
  }

  ghost predicate AlwaysInTime(s: State, steps: seq<Step>)
    decreases steps
  {
    steps == [] || (Enabled(s, steps[0]) && InTime(s, steps[0]) && AlwaysInTime(Apply(s, steps[0]), steps[1..]))
  }

  ghost predicate NoneLater(log: seq<Frame>, turn: nat) {
    forall i :: 0 <= i < |log| && log[i].User? ==> log[i].turn <= turn
  }

  lemma OneMoreFrame(log: seq<Frame>, frame: Frame)
    ensures InterruptsInTime(log + [frame]) <==>
              InterruptsInTime(log) && (frame.Interrupt? ==> NoneLater(log, frame.turn))
  {
    var longer := log + [frame];
    assert longer[|log|] == frame;
    forall i | 0 <= i < |log| ensures longer[i] == log[i] {}
  }

  /** The last turn published has its prompt written once the write mutex is free. */
  lemma LatestPrompt(s: State, turn: nat)
    requires FrameInv(s) && !s.writer.Writing? && Announced(s, turn)
    ensures NoneLater(s.log, turn) <==> turn == s.turnSeq
  {
    assert Prompted(s.log, turn) && turn <= s.turnSeq;
    if turn < s.turnSeq { assert Prompted(s.log, s.turnSeq); }
  }

  lemma LateWrite(s: State, c: ControlStep)
    requires FrameInv(s) && CanControl(s, c) && c.WriteInterrupt?
    ensures InterruptsInTime(ApplyControl(s, c).log) <==> InterruptsInTime(s.log) && s.accepted[c.id] == s.turnSeq
  {
    OneMoreFrame(s.log, Interrupt(c.id, s.accepted[c.id], c.ok));
    LatestPrompt(s, s.accepted[c.id]);
  }

  lemma PromptsAreInTime(s: State, step: TurnStep)
    requires CanTurn(s, step)
    ensures InterruptsInTime(ApplyTurn(s, step).log) <==> InterruptsInTime(s.log)
  {
    if step.WriteUser? { OneMoreFrame(s.log, User(s.writer.turn, step.ok)); }
  }

  lemma LateExactlyAfterAnother(s: State, step: Step)
    requires FrameInv(s) && Enabled(s, step)
    ensures InterruptsInTime(Apply(s, step).log) <==> InterruptsInTime(s.log) && InTime(s, step)
  {
    match step
    case Turns(t) => PromptsAreInTime(s, t);
    case Controls(c) => if c.WriteInterrupt? { LateWrite(s, c); } else { assert Apply(s, step).log == s.log; }
    case Stops(_) => assert Apply(s, step).log == s.log;
  }

  /** Over every run: each interrupt frame precedes the prompts of all later turns if and only if no turn
      was ever published between the acceptance of an interrupt and its write. */
  lemma {:induction false} LateInterrupts(s: State, steps: seq<Step>, end: State)
    requires Inv(s) && Run(s, steps, end)
    ensures InterruptsInTime(end.log) <==> InterruptsInTime(s.log) && AlwaysInTime(s, steps)
    decreases steps
  {
    if steps != [] {
      StepKeepsInv(s, steps[0]);
      LateExactlyAfterAnother(s, steps[0]);
      LateInterrupts(Apply(s, steps[0]), steps[1..], end);
    }
  }

  ghost predicate Reachable(s: State) {
    exists steps :: Run(Initial, steps, s)
  }

  lemma {:induction false} RunThenStep(s: State, steps: seq<Step>, mid: State, step: Step)
    requires Run(s, steps, mid) && Enabled(mid, step)
    ensures Run(s, steps + [step], Apply(mid, step))
    decreases steps
  {
    if steps == [] {
      assert [step][1..] == [];
    } else {
      RunThenStep(Apply(s, steps[0]), steps[1..], mid, step);
      assert (steps + [step])[1..] == steps[1..] + [step];
    }
  }

  lemma Take(s: State, step: Step) returns (s': State)
    requires Reachable(s) && Enabled(s, step)
    ensures s' == Apply(s, step) && Reachable(s')
  {
    var steps :| Run(Initial, steps, s);
    s' := Apply(s, step);
    RunThenStep(Initial, steps, s, step);
  }

  lemma Prompt(s: State) returns (s': State)
    requires Reachable(s) && s.writer.Free? && s.status.Idle? && !s.fatal && !s.closing
    ensures Reachable(s')
    ensures s' == s.(turnSeq := s.turnSeq + 1, converging := false, status := Running,
                     log := s.log + [User(s.turnSeq + 1, true)])
  {
    s' := Take(s, Turns(LockWrite));
    s' := Take(s', Turns(Publish));
    s' := Take(s', Turns(WriteUser(true)));
  }

  /** It happens: the first turn ends and a second begins before Abort gets at the write mutex, and the
      interrupt then reaches the second. */
  lemma InterruptHitsTheNext() returns (s: State)
    ensures Reachable(s) && s.status.Running? && s.turnSeq == 2
    ensures s.log == [User(1, true), User(2, true), Interrupt(1, 1, true)] && !InterruptsInTime(s.log)
  {
    assert Run(Initial, [], Initial);
    s := Prompt(Initial);
    s := Take(s, Controls(Accept));
    s := Take(s, Turns(Result));
    s := Take(s, Turns(TurnStep.FinishTurn(1)));
    s := Prompt(s);
    s := Take(s, Controls(WriteInterrupt(1, true)));
    assert s.log[1].turn > s.log[2].turn;
  }

  lemma TurnEndsRunning(s: State, step: TurnStep)
    requires CanTurn(s, step) && s.status.Running?
    ensures !ApplyTurn(s, step).status.Running? ==> step == FinishTurn(s.turnSeq)
  {}

  lemma ControlKeepsStatus(s: State, step: ControlStep)
    requires CanControl(s, step)
    ensures ApplyControl(s, step).status == s.status
  {}

  lemma StopEndsRunning(s: State, step: StopStep)
    requires s.status.Running?
    ensures !ApplyStop(s, step).status.Running? ==> step == Fatal && ApplyStop(s, step).status.Error?
  {}

  /** A turn stops running only when its own convergence finishes it or the worker fails. */
  lemma RunningEndsProperly(s: State, step: Step)
    requires Enabled(s, step) && s.status.Running?
    ensures !Apply(s, step).status.Running? ==>
              step == Turns(FinishTurn(s.turnSeq)) || (step == Stops(Fatal) && Apply(s, step).status.Error?)
  {
    match step
    case Turns(t) => TurnEndsRunning(s, t);
    case Controls(c) => ControlKeepsStatus(s, c);
    case Stops(x) => StopEndsRunning(s, x);
  }

  /** A fatal error is final. */
  lemma {:induction false} FatalIsAbsorbing(s: State, steps: seq<Step>, end: State)
    requires s.fatal && s.status.Error? && Run(s, steps, end)
    ensures end.fatal && end.status.Error? && end.turnSeq == s.turnSeq && end.previews == s.previews
    decreases steps
  {
    if steps != [] { FatalIsAbsorbing(Apply(s, steps[0]), steps[1..], end); }
  }

  // ---------------------------------------------------------------- the worker itself

  /** The worker's fields. Each method is a critical section, so any interleaving of calls is a run. */
  class Worker {
    var status: Status
    var turnSeq: nat
    var initialized: bool
    var converging: bool
    var fatal: bool
    var closing: bool
    var controlSeq: nat
    var controls: set<nat>
    var results: map<nat, nat>
    ghost var writer: Writer
    ghost var log: seq<Frame>
    ghost var accepted: map<nat, nat>
    ghost var delivering: set<nat>
    ghost var withdrawn: set<nat>
    ghost var unsent: set<nat>
    ghost var convergers: set<nat>
    ghost var spawned: set<nat>
    ghost var previews: seq<nat>
    ghost var initSends: nat

    ghost function Abs(): State
      reads this
    {
      State(status, turnSeq, initialized, converging, fatal, closing, writer, log, controlSeq, accepted, controls,
            delivering, withdrawn, results, unsent, convergers, spawned, previews, initSends)
    }

    constructor ()
      ensures Abs() == Initial
    {
      status, turnSeq, initialized, converging, fatal, closing := Idle, 0, false, false, false, false;
      controlSeq, controls, results := 0, {}, map[];
      writer, log, accepted, delivering, withdrawn, unsent := Free, [], map[], {}, {}, {};
      convergers, spawned, previews, initSends := {}, {}, [], 0;
    }

    /** Prompt under both mutexes: reject, or start the next turn and keep the write mutex. */
    method Publish() returns (started: bool)
      requires CanTurn(Abs(), TurnStep.Publish)
      modifies this
      ensures Abs() == ApplyTurn(old(Abs()), TurnStep.Publish)
      ensures started <==> !old(fatal) && !old(closing) && !old(status).Running?
    {
      if fatal || closing || status.Running? {
        writer := Free;
        return false;
      }
      turnSeq := turnSeq + 1;
      converging := false;
      status := Running;
      writer := Writing(turnSeq);
      return true;
    }

    /** handleResult: at most one convergence goroutine per turn. A success without an assistant
        message is a protocol error and starts none. */
    method HandleResult(isError: bool, success: bool, messageID: string) returns (spawn: bool, malformed: bool)
      modifies this
      ensures malformed ==> Abs() == old(Abs()) && !spawn
      ensures spawn ==> CanTurn(old(Abs()), TurnStep.Result) && Abs() == ApplyTurn(old(Abs()), TurnStep.Result)
      ensures !spawn ==> Abs() == old(Abs())
      ensures malformed <==> !old(converging) && !isError && success && messageID == ""
      ensures spawn <==> !old(converging) && !malformed
    {
      if converging {
        return false, false;
      }
      converging := true;
      if !isError && success && messageID == "" {
        converging := false;
        return false, true;
      }
      convergers, spawned := convergers + {turnSeq}, spawned + {turnSeq};
      return true, false;
    }

    method FinishTurn(generation: nat) returns (done: bool)
      requires CanTurn(Abs(), TurnStep.FinishTurn(generation))
      modifies this
      ensures Abs() == ApplyTurn(old(Abs()), TurnStep.FinishTurn(generation))
      ensures done <==> previews != old(previews)
    {
      convergers := convergers - {generation};
      if closing || fatal || generation != turnSeq {
        return false;
      }
      status := Idle;
      previews := previews + [generation];
      return true;
    }

    /** Abort's critical section. */
    method Accept() returns (id: nat, ok: bool)
      modifies this
      ensures ok <==> CanControl(old(Abs()), ControlStep.Accept)
      ensures ok ==> Abs() == ApplyControl(old(Abs()), ControlStep.Accept) && id == controlSeq
      ensures !ok ==> Abs() == old(Abs())
    {
      if !status.Running? || fatal || closing {
        return 0, false;
      }
      controlSeq := controlSeq + 1;
      id, ok := controlSeq, true;
      controls := controls + {id};
      accepted, unsent := accepted[id := turnSeq], unsent + {id};
    }

    /** handleControlResponse: whoever removes the id from the table may send on its channel. */
    method TakeControl(id: nat) returns (found: bool)
      modifies this`controls, this`delivering
      ensures found <==> CanControl(old(Abs()), ControlStep.TakeControl(id))
      ensures Abs() == if found then ApplyControl(old(Abs()), ControlStep.TakeControl(id)) else old(Abs())
    {
      found := id in controls;
      if found {
        controls, delivering := controls - {id}, delivering + {id};
      }
    }

    /** failPendingLocked: empty the table, sending on each channel as it goes. */
    method FailPendingLocked()
      modifies this`controls, this`results
      ensures controls == {} && results == FailPending(old(results), old(controls))
    {
      var left := controls;
      while left != {}
        invariant left <= controls <= old(controls) && left == controls
        invariant forall id :: id in results <==> id in old(results) || (id in old(controls) && id !in left)
        invariant forall id :: id in results ==>
                    results[id] == Sent(old(results), id) + if id in old(controls) && id !in left then 1 else 0
      {
        var id :| id in left;
        left := left - {id};
        controls := controls - {id};
        results := results[id := Sent(results, id) + 1];
      }
    }

    method ProtocolError()
      modifies this
      ensures Abs() == ApplyStop(old(Abs()), StopStep.Fatal)
    {
      if fatal || closing {
        return;
      }
      fatal := true;
      status := Error;
      FailPendingLocked();
    }

    method Close() returns (first: bool)
      modifies this
      ensures Abs() == ApplyStop(old(Abs()), StopStep.Close) && first == !old(closing)
    {
      if closing {
        return false;
      }
      closing := true;
      FailPendingLocked();
      return true;
    }
  }
}
