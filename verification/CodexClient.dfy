/** The calls of the JSON-RPC client in internal/codex/client.go. Callers, the stdout reader and
    whoever finds the connection broken interleave over one mutex; a step is one critical section, one
    channel operation or one write. */
module CodexCalls {

  /** What a call channel carries: the response to the request of that id, or the client's failure. */
  datatype Result = Reply(id: nat) | Failure

  datatype Outcome = Got(result: Result) | Abandoned | ClientFailed

  /** Where a call stands. */
  datatype Phase = Starting | Writing | Waiting | Removing | Finished(outcome: Outcome)

  /** A call with its request id and its own channel. */
  datatype Call = Call(channel: nat, phase: Phase)

  /** The stdout reader: between lines, holding the channel it has just removed from the table for a
      response, or done for because of a malformed line. */
  datatype Reader = Reading | Holding(channel: nat, id: nat) | Broken

  /** Whoever runs fail's body: nobody yet, past the critical section, or past closing `done`. */
  datatype Failing = NotFailing | Marked | Draining

  datatype State = State(
    failed: bool, done: bool, seqNo: nat, channels: nat, pending: map<nat, nat>, calls: map<nat, Call>,
    reader: Reader, failing: Failing, left: set<nat>, sent: map<nat, seq<Result>>)

  datatype Step = Calling(id: nat, c: CallStep) | Routing(r: RouteStep) | FailureStep(f: FailStep)

  datatype CallStep =
    | Begin                       // take the next id and make a channel
    | Register                    // the critical section that enters the table
    | Write(ok: bool)
    | Receive                     // take the value of the channel
    | Cancel                      // the context is done
    | Remove                      // the critical section that leaves the table
    | SeeDone                     // `done` is closed

  datatype RouteStep =
    | Take(id: nat)               // a response line: remove its entry, if there is one
    | Send                        // send on the channel that was taken
    | Malformed                   // the line is unusable, before or after its entry was taken

  datatype FailStep =
    | Mark                        // fail's critical section, under closeOnce
    | CloseDone
    | SendFailure(channel: nat)   // one turn of its loop

  const Initial := State(false, false, 0, 0, map[], map[], Reading, NotFailing, {}, map[])

  function SentOn(s: State, channel: nat): seq<Result> {
    if channel in s.sent then s.sent[channel] else []
  }

  predicate At(s: State, id: nat, phase: Phase) {
    id in s.calls && s.calls[id].phase == phase
  }

  function Move(s: State, id: nat, phase: Phase): State
    requires id in s.calls
  {
    s.(calls := s.calls[id := s.calls[id].(phase := phase)])
  }

  predicate CanCall(s: State, id: nat, step: CallStep) {
    match step
    case Begin => id == s.seqNo + 1
    case Register => At(s, id, Starting)
    case Write(_) => At(s, id, Writing)
    case Receive => At(s, id, Waiting) && SentOn(s, s.calls[id].channel) != []
    case Cancel => At(s, id, Waiting)
    case Remove => At(s, id, Removing)
    case SeeDone => At(s, id, Waiting) && s.done
  }

  function ApplyCall(s: State, id: nat, step: CallStep): State
    requires CanCall(s, id, step)
  {
    match step
    case Begin =>
      s.(seqNo := id, channels := s.channels + 1, calls := s.calls[id := Call(s.channels + 1, Starting)])
    case Register =>
      if s.failed then Move(s, id, Finished(ClientFailed))
      else Move(s, id, Writing).(pending := s.pending[id := s.calls[id].channel])
    case Write(ok) => Move(s, id, if ok then Waiting else Removing)
    case Receive => Move(s, id, Finished(Got(SentOn(s, s.calls[id].channel)[0])))
    case Cancel => Move(s, id, Removing)
    case Remove => Move(s, id, Finished(Abandoned)).(pending := s.pending - {id})
    case SeeDone => Move(s, id, Finished(ClientFailed))
  }

  predicate CanRoute(s: State, step: RouteStep) {
    match step
    case Take(_) => s.reader.Reading?
    case Send => s.reader.Holding?
    case Malformed => !s.reader.Broken?
  }

  function ApplyRoute(s: State, step: RouteStep): State
    requires CanRoute(s, step)
  {
    match step
    case Take(id) =>
      if id in s.pending then s.(pending := s.pending - {id}, reader := Holding(s.pending[id], id)) else s
    case Send =>
      var channel := s.reader.channel;
      s.(reader := Reading, sent := s.sent[channel := SentOn(s, channel) + [Reply(s.reader.id)]])
    case Malformed => s.(reader := Broken)
  }

  predicate CanFail(s: State, step: FailStep) {
    match step
    case Mark => s.failing.NotFailing?
    case CloseDone => s.failing.Marked?
    case SendFailure(channel) => s.failing.Draining? && channel in s.left
  }

  function ApplyFail(s: State, step: FailStep): State
    requires CanFail(s, step)
  {
    match step
    case Mark => s.(failed := true, failing := Marked, left := s.pending.Values, pending := map[])
    case CloseDone => s.(done := true, failing := Draining)
    case SendFailure(channel) =>
      s.(left := s.left - {channel}, sent := s.sent[channel := SentOn(s, channel) + [Failure]])
  }

  predicate Enabled(s: State, step: Step) {
    match step
    case Calling(id, c) => CanCall(s, id, c)
    case Routing(r) => CanRoute(s, r)
    case FailureStep(f) => CanFail(s, f)
  }

  function Apply(s: State, step: Step): State
    requires Enabled(s, step)
  {
    match step
    case Calling(id, c) => ApplyCall(s, id, c)
    case Routing(r) => ApplyRoute(s, r)
    case FailureStep(f) => ApplyFail(s, f)
  }

  ghost predicate Run(s: State, steps: seq<Step>, end: State)
    decreases steps
  {
    if steps == [] then end == s
    else Enabled(s, steps[0]) && Run(Apply(s, steps[0]), steps[1..], end)
  }

  // ---------------------------------------------------------------- what every step keeps

  ghost predicate Holds(s: State, channel: nat) {
    s.reader.Holding? && s.reader.channel == channel
  }

  /** Who may still send on the channel of a call: the table, the reader or the failure, but one only,
      and none of them once something was sent. */
  ghost predicate OneSender(s: State, id: nat)
    requires id in s.calls
  {
    var channel := s.calls[id].channel;
    && (id in s.pending ==> !Holds(s, channel) && channel !in s.left && SentOn(s, channel) == [])
    && (Holds(s, channel) ==> s.reader.id == id && channel !in s.left && SentOn(s, channel) == [])
    && (channel in s.left ==> SentOn(s, channel) == [])
    && |SentOn(s, channel)| <= 1
    && (SentOn(s, channel) != [] ==>
          SentOn(s, channel)[0] == Reply(id) || (SentOn(s, channel)[0] == Failure && s.failed))
  }

  /** A call that awaits its result is not forgotten: someone will send, or has sent, or the client
      has failed, or the reader is about to fail it. */
  ghost predicate Remembered(s: State, id: nat)
    requires id in s.calls
  {
    && (s.calls[id].phase.Starting? ==> id !in s.pending)
    && (s.calls[id].phase.Writing? || s.calls[id].phase.Waiting? ==>
          id in s.pending || Holds(s, s.calls[id].channel) || SentOn(s, s.calls[id].channel) != []
          || s.failed || s.reader.Broken?)
    && (s.calls[id].phase.Finished? ==> id !in s.pending)
    && (s.calls[id].phase.Finished? && s.calls[id].phase.outcome.Got? ==>
          SentOn(s, s.calls[id].channel) == [s.calls[id].phase.outcome.result])
  }

  ghost predicate CallOk(s: State, id: nat)
    requires id in s.calls
  {
    && (s.calls[id].phase.Starting? ==> Unused(s, s.calls[id].channel))
    && OneSender(s, id) && Remembered(s, id)
  }

  ghost predicate Unused(s: State, channel: nat) {
    SentOn(s, channel) == [] && !Holds(s, channel) && channel !in s.left
  }

  ghost predicate OwnChannels(s: State) {
    && (forall i, j :: i in s.calls && j in s.calls && s.calls[i].channel == s.calls[j].channel ==> i == j)
    && (forall id :: id in s.calls ==> id <= s.seqNo && s.calls[id].channel <= s.channels)
    && (forall id :: id in s.pending ==> id in s.calls && s.pending[id] == s.calls[id].channel)
    && (forall channel :: channel > s.channels ==> Unused(s, channel))
  }

  /** After the failure is marked the table stays empty, and `done` is closed or about to be. */
  ghost predicate FailsCleanly(s: State) {
    && (s.failed <==> !s.failing.NotFailing?) && (s.failed ==> s.pending == map[])
    && (s.done <==> s.failing.Draining?) && (s.failing.NotFailing? ==> s.left == {})
  }

  /** Whoever is about to send finds its one-place channel empty. */
  ghost predicate SendersReady(s: State) {
    && (s.reader.Holding? ==> SentOn(s, s.reader.channel) == [])
    && (forall channel :: channel in s.left ==> SentOn(s, channel) == [] && !Holds(s, channel))
  }

  ghost predicate Inv(s: State) {
    OwnChannels(s) && FailsCleanly(s) && SendersReady(s) && forall id :: id in s.calls ==> CallOk(s, id)
  }

  lemma BeginKeepsChannels(s: State, id: nat)
    requires OwnChannels(s) && CanCall(s, id, Begin)
    ensures OwnChannels(ApplyCall(s, id, Begin))
  {
    var s' := ApplyCall(s, id, Begin);
    forall channel | channel > s'.channels ensures Unused(s', channel) { assert Unused(s, channel); }
    assert id !in s.calls && s'.calls[id].channel == s.channels + 1;
    assert forall i :: i in s.calls ==> s'.calls[i] == s.calls[i];
  }

  lemma CallKeepsChannels(s: State, id: nat, step: CallStep)
    requires OwnChannels(s) && CanCall(s, id, step) && !step.Begin?
    ensures OwnChannels(ApplyCall(s, id, step))
  {
    var s' := ApplyCall(s, id, step);
    forall channel | channel > s'.channels ensures Unused(s', channel) { assert Unused(s, channel); }
    assert s'.calls.Keys == s.calls.Keys;
    assert forall i :: i in s.calls ==> s'.calls[i].channel == s.calls[i].channel;
  }

  lemma CallFailsCleanly(s: State, id: nat, step: CallStep)
    requires FailsCleanly(s) && CanCall(s, id, step)
    ensures FailsCleanly(ApplyCall(s, id, step))
  {}

  lemma RouteKeepsChannels(s: State, step: RouteStep)
    requires OwnChannels(s) && FailsCleanly(s) && CanRoute(s, step)
    ensures OwnChannels(ApplyRoute(s, step)) && FailsCleanly(ApplyRoute(s, step))
  {
    var s' := ApplyRoute(s, step);
    forall channel | channel > s'.channels ensures Unused(s', channel) {
      assert Unused(s, channel);
    }
  }

  lemma FailKeepsChannels(s: State, step: FailStep)
    requires OwnChannels(s) && FailsCleanly(s) && CanFail(s, step)
    ensures OwnChannels(ApplyFail(s, step)) && FailsCleanly(ApplyFail(s, step))
  {
    var s' := ApplyFail(s, step);
    forall channel | channel > s'.channels ensures Unused(s', channel) {
      assert Unused(s, channel);
      assert step.Mark? ==> forall id :: id in s.pending ==>
               id in s.calls && s.pending[id] == s.calls[id].channel <= s.channels;
    }
  }

  lemma BeginKeepsInv(s: State, id: nat)
    requires Inv(s) && CanCall(s, id, Begin)
    ensures forall i :: i in ApplyCall(s, id, Begin).calls ==> CallOk(ApplyCall(s, id, Begin), i)
  {
    assert id !in s.calls && Unused(s, s.channels + 1);
    forall i | i in s.calls ensures CallOk(ApplyCall(s, id, Begin), i) { assert CallOk(s, i); }
  }

  lemma CallSendersKept(s: State, id: nat, step: CallStep)
    requires SendersReady(s) && CanCall(s, id, step)
    ensures SendersReady(ApplyCall(s, id, step))
  {}

  lemma RouteSendersKept(s: State, step: RouteStep)
    requires Inv(s) && CanRoute(s, step)
    ensures SendersReady(ApplyRoute(s, step))
  {
    if step.Take? && step.id in s.pending { assert CallOk(s, step.id); }
  }

  lemma FailSendersKept(s: State, step: FailStep)
    requires Inv(s) && CanFail(s, step)
    ensures SendersReady(ApplyFail(s, step))
  {
    forall id | id in s.pending ensures CallOk(s, id) {}
  }

  lemma CallStepKeepsInv(s: State, id: nat, step: CallStep)
    requires Inv(s) && CanCall(s, id, step)
    ensures Inv(ApplyCall(s, id, step))
  {
    var s' := ApplyCall(s, id, step);
    CallFailsCleanly(s, id, step);
    CallSendersKept(s, id, step);
    if step.Begin? {
      BeginKeepsChannels(s, id);
      BeginKeepsInv(s, id);
    } else {
      assert CallOk(s, id);
      CallKeepsChannels(s, id, step);
      OwnCallKept(s, id, step);
      forall other | other in s'.calls && other != id ensures CallOk(s', other) { OtherCallKept(s, id, step, other); }
    }
  }

  lemma OwnCallKept(s: State, id: nat, step: CallStep)
    requires OwnChannels(s) && FailsCleanly(s) && CanCall(s, id, step) && !step.Begin? && CallOk(s, id)
    ensures CallOk(ApplyCall(s, id, step), id)
  {
    assert SentOn(ApplyCall(s, id, step), s.calls[id].channel) == SentOn(s, s.calls[id].channel);
  }

  lemma OtherCallKept(s: State, id: nat, step: CallStep, other: nat)
    requires CanCall(s, id, step) && !step.Begin? && other in s.calls && other != id && CallOk(s, other)
    ensures CallOk(ApplyCall(s, id, step), other)
  {}

  lemma RouteStepKeepsInv(s: State, step: RouteStep)
    requires Inv(s) && CanRoute(s, step)
    ensures Inv(ApplyRoute(s, step))
  {
    var s' := ApplyRoute(s, step);
    RouteKeepsChannels(s, step);
    RouteSendersKept(s, step);
    forall id | id in s'.calls ensures CallOk(s', id) {
      assert CallOk(s, id);
      if step.Take? && step.id in s.pending { assert CallOk(s, step.id); }
    }
  }

  lemma FailStepKeepsInv(s: State, step: FailStep)
    requires Inv(s) && CanFail(s, step)
    ensures Inv(ApplyFail(s, step))
  {
    var s' := ApplyFail(s, step);
    FailKeepsChannels(s, step);
    FailSendersKept(s, step);
    forall id | id in s'.calls ensures CallOk(s', id) {
      assert CallOk(s, id);
      forall other | other in s.pending ensures CallOk(s, other) {}
    }
  }

  lemma {:induction false} RunKeepsInv(s: State, steps: seq<Step>, end: State)
    requires Inv(s) && Run(s, steps, end)
    ensures Inv(end)
    decreases steps
  {
    if steps != [] {
      match steps[0] {
        case Calling(id, c) => CallStepKeepsInv(s, id, c);
        case Routing(r) => RouteStepKeepsInv(s, r);
        case FailureStep(f) => FailStepKeepsInv(s, f);
      }
      RunKeepsInv(Apply(s, steps[0]), steps[1..], end);
    }
  }

  /** Over every run: after the failure the table is empty; a call channel gets one value at most,
      which is the response to its own request or the failure; and a call returns that value. */
  lemma EveryRunIsSafe(steps: seq<Step>, end: State, id: nat)
    requires Run(Initial, steps, end)
    ensures end.failed ==> end.pending == map[]
    ensures id in end.calls ==>
              var sent := SentOn(end, end.calls[id].channel);
              && |sent| <= 1 && (sent != [] ==> sent[0] == Reply(id) || (sent[0] == Failure && end.failed))
              && (end.calls[id].phase.Finished? && end.calls[id].phase.outcome.Got? ==>
                    sent == [end.calls[id].phase.outcome.result])
    ensures end.reader.Holding? ==> SentOn(end, end.reader.channel) == []
    ensures forall channel :: channel in end.left ==> SentOn(end, channel) == []
  {
    RunKeepsInv(Initial, steps, end);
    if id in end.calls { assert CallOk(end, id); }
  }

  /** The failure is final: no later call gets into the table. */
  lemma {:induction false} TableStaysEmpty(s: State, steps: seq<Step>, end: State)
    requires s.failed && s.pending == map[] && Run(s, steps, end)
    ensures end.failed && end.pending == map[]
    decreases steps
  {
    if steps != [] { TableStaysEmpty(Apply(s, steps[0]), steps[1..], end); }
  }

  /** Once the client has failed, a waiting call can finish, at once or after the one step that closes
      `done`; and it can finish too once its value is sent. */
  lemma WaitingCanFinish(s: State, id: nat)
    requires Inv(s) && At(s, id, Waiting)
    ensures s.failed ==>
              CanCall(s, id, SeeDone) || (CanFail(s, CloseDone) && CanCall(ApplyFail(s, CloseDone), id, SeeDone))
    ensures !s.failed ==>
              id in s.pending || Holds(s, s.calls[id].channel) || s.reader.Broken? || CanCall(s, id, Receive)
    ensures !s.failed && s.reader.Broken? ==> CanFail(s, Mark)
  {
    assert CallOk(s, id);
  }

  // ---------------------------------------------------------------- the client itself

  /** The fields behind the mutex. Each method is a critical section, so any interleaving of calls is
      a run. */
  class Client {
    var failed: bool
    var pending: map<nat, nat>
    var seqNo: nat
    ghost var done: bool
    ghost var channels: nat
    ghost var calls: map<nat, Call>
    ghost var reader: Reader
    ghost var failing: Failing
    ghost var left: set<nat>
    ghost var sent: map<nat, seq<Result>>

    ghost function Abs(): State
      reads this
    {
      State(failed, done, seqNo, channels, pending, calls, reader, failing, left, sent)
    }

    constructor ()
      ensures Abs() == Initial
    {
      failed, pending, seqNo, done, channels, calls := false, map[], 0, false, 0, map[];
      reader, failing, left, sent := Reading, NotFailing, {}, map[];
    }

    /** The first half of Call: take an id and make a channel. */
    method Begin() returns (id: nat)
      modifies this
      ensures id == old(seqNo) + 1 && Abs() == ApplyCall(old(Abs()), id, CallStep.Begin)
    {
      seqNo := seqNo + 1;
      id := seqNo;
      channels := channels + 1;
      calls := calls[id := Call(channels, Starting)];
    }

    /** Enter the table, unless the client has failed. */
    method Register(id: nat, channel: nat) returns (ok: bool)
      requires CanCall(Abs(), id, CallStep.Register) && calls[id].channel == channel
      modifies this
      ensures Abs() == ApplyCall(old(Abs()), id, CallStep.Register) && ok == !old(failed)
    {
      if failed {
        calls := calls[id := calls[id].(phase := Finished(ClientFailed))];
        return false;
      }
      pending := pending[id := channel];
      calls := calls[id := calls[id].(phase := Writing)];
      return true;
    }

    method Remove(id: nat)
      requires CanCall(Abs(), id, CallStep.Remove)
      modifies this
      ensures Abs() == ApplyCall(old(Abs()), id, CallStep.Remove)
    {
      pending := pending - {id};
      calls := calls[id := calls[id].(phase := Finished(Abandoned))];
    }

    /** route: whoever removes an entry from the table may send on its channel. */
    method Take(id: nat) returns (found: bool, channel: nat)
      requires CanRoute(Abs(), RouteStep.Take(id))
      modifies this
      ensures Abs() == ApplyRoute(old(Abs()), RouteStep.Take(id))
      ensures found <==> id in old(pending)
      ensures found ==> channel == old(pending)[id]
    {
      if id !in pending {
        return false, 0;
      }
      found, channel := true, pending[id];
      pending := pending - {id};
      reader := Holding(channel, id);
    }

    /** fail's critical section, run at most once: take the whole table. */
    method MarkFailed() returns (taken: set<nat>)
      requires CanFail(Abs(), FailStep.Mark)
      modifies this
      ensures Abs() == ApplyFail(old(Abs()), FailStep.Mark) && taken == left
    {
      failed := true;
      taken := pending.Values;
      pending := map[];
      failing, left := Marked, taken;
    }
  }
}

/** The notification queue of the same client: the stdout reader appends and signals without ever
    blocking, and one dispatcher drains. A step is one critical section, one channel operation or one
    call of the handler. */
module CodexNotifications {

  datatype Dispatcher = Parked | Draining | Handling(n: int) | Exited

  /** `wire` is every notification ever appended, `handled` every one whose handler has returned. */
  datatype State = State(
    queue: seq<int>, wake: bool, signalling: bool, dispatcher: Dispatcher, done: bool, wire: seq<int>,
    handled: seq<int>)

  datatype Step =
    | Append(n: int)      // enqueueNotification's critical section
    | Signal              // its send on the wake channel, dropped if the channel is full
    | Wake                // the dispatcher takes the token
    | Next                // its critical section: take the first notification, or stop draining
    | Handle              // the handler returns
    | CloseDone
    | Exit                // the dispatcher sees `done`

  const Initial := State([], false, false, Parked, false, [], [])

  predicate Enabled(s: State, step: Step) {
    match step
    case Append(_) => !s.signalling
    case Signal => s.signalling
    case Wake => s.dispatcher.Parked? && s.wake
    case Next => s.dispatcher.Draining?
    case Handle => s.dispatcher.Handling?
    case CloseDone => true
    case Exit => s.dispatcher.Parked? && s.done
  }

  function Apply(s: State, step: Step): State
    requires Enabled(s, step)
  {
    match step
    case Append(n) => s.(queue := s.queue + [n], wire := s.wire + [n], signalling := true)
    case Signal => s.(signalling := false, wake := true)
    case Wake => s.(wake := false, dispatcher := Draining)
    case Next =>
      if s.queue == [] then s.(dispatcher := Parked)
      else s.(dispatcher := Handling(s.queue[0]), queue := s.queue[1..])
    case Handle => s.(dispatcher := Draining, handled := s.handled + [s.dispatcher.n])
    case CloseDone => s.(done := true)
    case Exit => s.(dispatcher := Exited)
  }

  ghost predicate Run(s: State, steps: seq<Step>, end: State)
    decreases steps
  {
    if steps == [] then end == s
    else Enabled(s, steps[0]) && Run(Apply(s, steps[0]), steps[1..], end)
  }

  function InHand(d: Dispatcher): seq<int> {
    if d.Handling? then [d.n] else []
  }

  ghost predicate InOrder(s: State) {
    s.wire == s.handled + InHand(s.dispatcher) + s.queue
  }

  ghost predicate NoLostWakeUp(s: State) {
    && (s.queue != [] ==>
          s.wake || s.signalling || s.dispatcher.Draining? || s.dispatcher.Handling? || s.dispatcher.Exited?)
    && (s.dispatcher.Exited? ==> s.done)
  }

  ghost predicate Inv(s: State) {
    InOrder(s) && NoLostWakeUp(s)
  }

  lemma StepKeepsInv(s: State, step: Step)
    requires Inv(s) && Enabled(s, step)
    ensures Inv(Apply(s, step))
  {
    var s' := Apply(s, step);
    if step.Next? && s.queue != [] { assert s.queue == [s.queue[0]] + s.queue[1..]; }
  }

  lemma {:induction false} RunKeepsInv(s: State, steps: seq<Step>, end: State)
    requires Inv(s) && Run(s, steps, end)
    ensures Inv(end)
    decreases steps
  {
    if steps != [] {
      StepKeepsInv(s, steps[0]);
      RunKeepsInv(Apply(s, steps[0]), steps[1..], end);
    }
  }

  /** Over every run: the notifications handled are a prefix of those received, in their order; those
      not handled yet are queued; and unless the client is done, a queue that is not empty has its
      wake-up: a token, an active drain, or an enqueuer about to signal. */
  lemma EveryRunIsSafe(steps: seq<Step>, end: State)
    requires Run(Initial, steps, end)
    ensures end.handled <= end.wire
    ensures end.wire == end.handled + InHand(end.dispatcher) + end.queue
    ensures !end.done && end.queue != [] ==>
              end.wake || end.signalling || end.dispatcher.Draining? || end.dispatcher.Handling?
    ensures !end.done && end.dispatcher.Parked? && !end.wake && !end.signalling ==> end.handled == end.wire
  {
    RunKeepsInv(Initial, steps, end);
  }

  /** So as long as something is queued, some step other than a new arrival can be taken. */
  lemma NeverStuck(s: State)
    requires Inv(s) && s.queue != [] && !s.done
    ensures Enabled(s, Signal) || Enabled(s, Wake) || Enabled(s, Next) || Enabled(s, Handle)
  {}

  /** The queue behind its own mutex, with the one-place wake channel. */
  class Notifier {
    var queue: seq<int>
    var wake: bool
    ghost var signalling: bool
    ghost var dispatcher: Dispatcher
    ghost var done: bool
    ghost var wire: seq<int>
    ghost var handled: seq<int>

    ghost function Abs(): State
      reads this
    {
      State(queue, wake, signalling, dispatcher, done, wire, handled)
    }

    constructor ()
      ensures Abs() == Initial
    {
      queue, wake, signalling, dispatcher, done, wire, handled := [], false, false, Parked, false, [], [];
    }

    method Append(n: int)
      requires Enabled(Abs(), Step.Append(n))
      modifies this
      ensures Abs() == Apply(old(Abs()), Step.Append(n))
    {
      queue := queue + [n];
      wire, signalling := wire + [n], true;
    }

    /** The send that is dropped when the token is already there. */
    method Signal()
      requires Enabled(Abs(), Step.Signal)
      modifies this
      ensures Abs() == Apply(old(Abs()), Step.Signal)
    {
      if !wake {
        wake := true;
      }
      signalling := false;
    }

    /** The dispatcher's critical section. */
    method Next() returns (more: bool, n: int)
      requires Enabled(Abs(), Step.Next)
      modifies this
      ensures Abs() == Apply(old(Abs()), Step.Next)
      ensures more <==> old(queue) != []
      ensures more ==> n == old(queue)[0]
    {
      if queue == [] {
        dispatcher := Parked;
        return false, 0;
      }
      more, n := true, queue[0];
      queue := queue[1..];
      dispatcher := Handling(n);
    }

    method Handled()
      requires Enabled(Abs(), Step.Handle)
      modifies this
      ensures Abs() == Apply(old(Abs()), Step.Handle)
    {
      handled, dispatcher := handled + [dispatcher.n], Draining;
    }

    /** A whole drain, with nothing arriving meanwhile: everything queued is handled, in order. */
    method Drain() returns (given: seq<int>)
      requires Enabled(Abs(), Step.Wake)
      modifies this
      ensures given == old(queue) && queue == [] && handled == old(handled) + old(queue)
      ensures dispatcher.Parked? && !wake && wire == old(wire)
    {
      wake, dispatcher := false, Draining;
      given := [];
      while true
        invariant dispatcher.Draining? && !wake && wire == old(wire)
        invariant given + queue == old(queue) && handled == old(handled) + given
        decreases |queue|
      {
        ghost var before := queue;
        var more, n := Next();
        if !more {
          assert given == given + before;
          return;
        }
        assert given + before == (given + [n]) + queue;
        given := given + [n];
        Handled();
      }
    }
  }
}
