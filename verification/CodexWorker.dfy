/** The revisions of a Codex worker, internal/codex/worker.go: notifications, delayed reads, timers and
    projection writes interleave over one mutex, and every write carries the revision it was made at.
    A step is one critical section. The worker keeps the very slices of a read thread that it also hands
    to the projection writer, so a write can rewrite the worker's own turns. */
module CodexWorker {
  import opened Options
  import opened CodexItems
  import opened CodexThread
  import opened CodexToolActivity
  import opened CodexMergeIds

  /** A snapshot to be written, with the revision it was taken at; it is a clone, or shares its turns
      with the worker. */
  datatype Job = Job(revision: nat, thread: Thread, shared: bool)

  /** A read started when a turn completed: what it protects, and what the worker had then. */
  datatype Read = Read(revision: nat, turnID: string, newer: string, native: bool, local: Thread)

  /** The tool activity read back from the old projection, here any at all (CodexDurability has the file
      that it comes from), and the order in which the turns that the thread lacks happen to be visited. */
  datatype Capture = Capture(turns: map<string, Turn>, order: seq<string>)

  /** How a write ends: before the merge, after it, or with the projection written. */
  datatype Outcome = Unread | Unwritten | Done

  /** A projection written: the thread it was made from, and what it shows. */
  datatype Written = Written(revision: nat, source: Thread, shown: Thread)

  /** `history` has, for every revision, the thread as it was made and as each shared write then rewrote
      it; `jobs` and `lookups` every snapshot and read ever started; `written` every projection written
      successfully, in order. */
  datatype State = State(
    thread: Thread, revision: nat, active: string, completed: set<string>, closed: bool, pending: bool,
    materialized: nat, jobs: set<Job>, lookups: set<Read>, written: seq<Written>, history: seq<seq<Thread>>)

  /** The critical sections that change the thread or at least its revision. */
  datatype Change =
    | TurnStarted(turn: Turn)
    | LiveItem(turnID: string, item: Item)
    | Delta(turnID: string, itemID: string, kind: string, field: string, delta: string)
    | ItemCompleted(turnID: string, item: Item)
    | TurnCompleted(turn: Turn, native: bool)
    | Extra(extra: string)                       // diff, token usage, rerouted model
    | Touch                                      // a setting: only the revision moves
    | Refreshed(thread: Thread)                  // a read requested by a notification has arrived

  datatype Step =
    | Changing(c: Change)
    | PromptReply(turnID: string)                // the reply to a new turn
    | SteerReply(turnID: string)                 // the reply to a steered turn
    | Idle                                       // the thread is reported idle or closed
    | Schedule                                   // scheduleMaterialize's critical section
    | Fire                                       // the materialization timer
    | Finish(read: Read, remote: Thread, swap: bool)
    | Write(job: Job, capture: Capture, outcome: Outcome)  // materializeRevision
    | Close

  // ---------------------------------------------------------------- writing a projection

  /** What readCapturedToolTurns yields, and the captured turns that this thread lacks. */
  ghost predicate ValidCapture(thread: Thread, capture: Capture) {
    && (forall id :: id in capture.turns ==>
          capture.turns[id].id == id && DistinctItems(capture.turns[id].items) && HasTool(capture.turns[id].items))
    && (forall i :: 0 <= i < |capture.order| ==> capture.order[i] in capture.turns)
    && Lists(capture.order, capture.turns.Keys - TurnIds(thread.turns))
  }

  /** What the projection shows. */
  ghost function ShownOf(thread: Thread, capture: Capture): Thread
    requires ValidCapture(thread, capture)
  {
    Merge(thread, capture.turns, capture.order)
  }

  /** What the merge leaves in the turns it was given. */
  function Rewritten(thread: Thread, captured: map<string, Turn>): Thread {
    thread.(turns := seq(|thread.turns|, i requires 0 <= i < |thread.turns| => MergeTurn(thread.turns[i], captured)))
  }

  /** The rewritten turns are what the projection shows of them; besides these it shows the captured
      turns that the thread lacks. */
  lemma ShownIsRewritten(thread: Thread, capture: Capture)
    requires ValidCapture(thread, capture)
    ensures ShownOf(thread, capture).turns[..|thread.turns|] == Rewritten(thread, capture.turns).turns
    ensures forall t :: t in ShownOf(thread, capture).turns[|thread.turns|..] ==>
              t.id !in TurnIds(thread.turns) && t.id in capture.turns && t == capture.turns[t.id]
  {
    var shown, n := ShownOf(thread, capture).turns, |thread.turns|;
    forall t | t in shown[n..]
      ensures t.id !in TurnIds(thread.turns) && t.id in capture.turns && t == capture.turns[t.id]
    {
      var j :| 0 <= j < |shown[n..]| && shown[n..][j] == t;
      assert t == capture.turns[capture.order[j]] && capture.order[j] in capture.order;
    }
  }

  ghost predicate Shows(shown: Thread, source: Thread) {
    exists capture :: ValidCapture(source, capture) && shown == ShownOf(source, capture)
  }

  // ---------------------------------------------------------------- the steps

  /** The last turn still in progress. */
  function ActiveTurn(turns: seq<Turn>): string {
    if turns == [] then ""
    else if turns[|turns| - 1].status == "inProgress" then turns[|turns| - 1].id
    else ActiveTurn(turns[..|turns| - 1])
  }

  /** NewWorker has read the thread and written its projection, which rewrote the thread. */
  ghost function Start(thread: Thread, capture: Capture): State
    requires ValidCapture(thread, capture)
  {
    var now := Rewritten(thread, capture.turns);
    State(now, 0, ActiveTurn(thread.turns), {}, false, false, 0, {}, {},
          [Written(0, thread, ShownOf(thread, capture))], [[thread, now]])
  }

  function Advance(s: State, thread: Thread): State {
    s.(thread := thread, revision := s.revision + 1, history := s.history + [[thread]])
  }

  function Changed(thread: Thread, c: Change): Thread {
    match c
    case TurnStarted(turn) => thread.(turns := PutTurn(thread.turns, turn))
    case LiveItem(turnID, item) => thread.(turns := PutItemIn(thread.turns, turnID, item, "inProgress"))
    case Delta(turnID, itemID, kind, field, delta) =>
      thread.(turns := PutDelta(thread.turns, turnID, itemID, kind, field, delta))
    case ItemCompleted(turnID, item) => thread.(turns := PutItemIn(thread.turns, turnID, item, ""))
    case TurnCompleted(turn, _) => thread.(turns := MergeCompleted(thread.turns, turn))
    case Extra(extra) => thread.(extra := extra)
    case Touch => thread
    case Refreshed(remote) => remote
  }

  /** Snapshots from the wire have distinct ids. */
  ghost predicate WellFormedChange(c: Change) {
    match c
    case TurnStarted(turn) => DistinctItems(turn.items)
    case TurnCompleted(turn, _) => DistinctItems(turn.items)
    case Refreshed(thread) => WellFormed(thread.turns)
    case _ => true
  }

  function Submit(s: State, shared: bool): State {
    s.(jobs := s.jobs + {Job(s.revision, s.thread, shared)})
  }

  function ApplyChange(before: State, c: Change): State {
    if c.TurnCompleted? && before.closed then before
    else Effects(Advance(before, Changed(before.thread, c)), c)
  }

  /** What a change does besides changing the thread. */
  function Effects(s: State, c: Change): State {
    match c
    case TurnStarted(turn) => s.(completed := s.completed - {turn.id}, active := turn.id)
    case ItemCompleted(_, _) => Submit(s, false)
    case Refreshed(_) => Submit(s, true)
    case TurnCompleted(turn, native) =>
      var newer := if s.active == turn.id then "" else s.active;
      s.(completed := s.completed + {turn.id}, active := newer,
         lookups := s.lookups + {Read(s.revision, turn.id, newer, native, s.thread)})
    case _ => s
  }

  /** The protected turns of a read, in the order in which they happen to be visited. */
  function Order(read: Read, swap: bool): seq<string> {
    var ids := (if read.turnID == "" then [] else [read.turnID])
               + (if read.newer == "" || read.newer == read.turnID then [] else [read.newer]);
    if swap && |ids| == 2 then [ids[1], ids[0]] else ids
  }

  /** The thread that a delayed read leads to: the worker's own session is replaced, any other thread
      is a review whose turns are added. */
  function AfterRead(thread: Thread, read: Read, remote: Thread, swap: bool): Thread {
    if read.native then remote.(turns := Preserved(remote.turns, read.local.turns, Order(read, swap)))
    else thread.(turns := PutAll(thread.turns, remote.turns))
  }

  /** The thread that a write is made from: a shared snapshot is whatever the worker has by then. */
  function Source(s: State, job: Job): Thread {
    if job.shared then s.thread else job.thread
  }

  predicate Effective(s: State, job: Job) {
    !s.closed && s.revision == job.revision && s.materialized != job.revision
  }

  /** The thread is rewritten in place: its revision does not move. */
  function Rewrite(s: State, thread: Thread): State
    requires s.revision < |s.history|
  {
    s.(thread := thread, history := s.history[s.revision := s.history[s.revision] + [thread]])
  }

  ghost predicate CanWrite(s: State, job: Job, capture: Capture) {
    job in s.jobs && ValidCapture(Source(s, job), capture) && s.revision < |s.history|
  }

  ghost function ApplyWrite(s: State, job: Job, capture: Capture, outcome: Outcome): State
    requires CanWrite(s, job, capture)
  {
    if !Effective(s, job) || outcome.Unread? then s
    else
      var source := Source(s, job);
      var merged := if job.shared then Rewrite(s, Rewritten(s.thread, capture.turns)) else s;
      if outcome.Unwritten? then merged
      else
        merged.(materialized := job.revision,
                written := s.written + [Written(job.revision, source, ShownOf(source, capture))])
  }

  ghost predicate Enabled(s: State, step: Step) {
    match step
    case Changing(c) => WellFormedChange(c)
    case Fire => s.pending
    case Finish(read, remote, _) => read in s.lookups && WellFormed(remote.turns)
    case Write(job, capture, _) => CanWrite(s, job, capture)
    case _ => true
  }

  ghost function Apply(s: State, step: Step): State
    requires Enabled(s, step)
  {
    match step
    case Changing(c) => ApplyChange(s, c)
    case PromptReply(turnID) =>
      if turnID == "" || turnID in s.completed then s else Advance(s, s.thread).(active := turnID)
    case SteerReply(turnID) => if turnID == "" then s else s.(active := turnID)
    case Idle => s.(active := "")
    case Schedule => s.(pending := s.pending || !s.closed)
    case Fire => if s.closed then s.(pending := false) else Submit(s, false).(pending := false)
    case Finish(read, remote, swap) =>
      if s.closed || s.revision != read.revision then s
      else Submit(Advance(s, AfterRead(s.thread, read, remote, swap)), read.native)
    case Write(job, capture, outcome) => ApplyWrite(s, job, capture, outcome)
    case Close => s.(closed := true)
  }

  ghost predicate Run(s: State, steps: seq<Step>, end: State)
    decreases steps
  {
    if steps == [] then end == s
    else Enabled(s, steps[0]) && Run(Apply(s, steps[0]), steps[1..], end)
  }

  // ---------------------------------------------------------------- what every step keeps

  /** The thread as of a revision: as it was made, or as a shared write at that revision left it. */
  ghost predicate AsOf(s: State, revision: nat, thread: Thread) {
    revision < |s.history| && thread in s.history[revision]
  }

  /** The versions of a thread at one revision: each later one is what a merge left of the one before. */
  ghost predicate Versions(threads: seq<Thread>) {
    threads != [] && forall j, k :: 0 <= j && k == j + 1 && k < |threads| ==> MergeLeaves(threads[j], threads[k])
  }

  ghost predicate MergeLeaves(before: Thread, after: Thread) {
    exists captured :: after == Rewritten(before, captured)
  }

  lemma OneMoreVersion(threads: seq<Thread>, captured: map<string, Turn>)
    requires Versions(threads)
    ensures Versions(threads + [Rewritten(threads[|threads| - 1], captured)])
  {
    var last := threads[|threads| - 1];
    assert MergeLeaves(last, Rewritten(last, captured));
  }

  ghost predicate Recorded(s: State) {
    && |s.history| == s.revision + 1
    && (forall r :: 0 <= r < |s.history| ==> Versions(s.history[r]))
    && s.history[s.revision][|s.history[s.revision]| - 1] == s.thread
    && (forall job :: job in s.jobs ==> AsOf(s, job.revision, job.thread))
  }

  /** The revision of a read has one version only: no snapshot taken at it shares the worker's turns. */
  ghost predicate ReadsApart(s: State) {
    && (forall read :: read in s.lookups ==> read.revision < |s.history| && s.history[read.revision] == [read.local])
    && (forall job, read :: job in s.jobs && job.shared && read in s.lookups ==> job.revision != read.revision)
  }

  ghost predicate WrittenInOrder(s: State) {
    && s.written != [] && s.written[|s.written| - 1].revision == s.materialized <= s.revision
    && (forall i, j :: 0 <= i < j < |s.written| ==> s.written[i].revision < s.written[j].revision)
    && (forall i :: 0 <= i < |s.written| ==> WrittenOk(s, s.written[i]))
  }

  ghost predicate WrittenOk(s: State, w: Written) {
    AsOf(s, w.revision, w.source) && Shows(w.shown, w.source)
  }

  ghost predicate TurnsDistinct(s: State) {
    DistinctTurns(s.thread.turns)
  }

  ghost predicate Inv(s: State) {
    Recorded(s) && ReadsApart(s) && WrittenInOrder(s) && TurnsDistinct(s)
  }

  lemma ChangedKeepsTurns(thread: Thread, c: Change)
    requires DistinctTurns(thread.turns) && WellFormedChange(c)
    ensures DistinctTurns(Changed(thread, c).turns)
  {
    var r := Changed(thread, c).turns;
    match c
    case TurnStarted(turn) => UpdatesKeepTurns(thread.turns, turn.id, r);
    case LiveItem(turnID, _) => UpdatesKeepTurns(thread.turns, turnID, r);
    case Delta(turnID, _, _, _, _) => UpdatesKeepTurns(thread.turns, turnID, r);
    case ItemCompleted(turnID, _) => UpdatesKeepTurns(thread.turns, turnID, r);
    case TurnCompleted(turn, _) => UpdatesKeepTurns(thread.turns, turn.id, r);
    case _ =>
  }

  lemma AfterReadKeepsTurns(thread: Thread, read: Read, remote: Thread, swap: bool)
    requires DistinctTurns(thread.turns) && DistinctTurns(remote.turns)
    ensures DistinctTurns(AfterRead(thread, read, remote, swap).turns)
  {
    if read.native {
      PreservedIs(remote.turns, read.local.turns, Order(read, swap));
    } else {
      PutAllKeepsForm(thread.turns, remote.turns);
    }
  }

  lemma AdvanceKeeps(s: State, thread: Thread)
    requires Recorded(s) && ReadsApart(s) && WrittenInOrder(s)
    ensures Recorded(Advance(s, thread)) && ReadsApart(Advance(s, thread)) && WrittenInOrder(Advance(s, thread))
    ensures forall job :: job in s.jobs ==> job.revision <= s.revision
    ensures forall read :: read in s.lookups ==> read.revision <= s.revision
  {
    var s' := Advance(s, thread);
    forall revision, t | AsOf(s, revision, t) ensures AsOf(s', revision, t) {}
    forall i | 0 <= i < |s.written| ensures WrittenOk(s', s.written[i]) { assert WrittenOk(s, s.written[i]); }
  }

  lemma SubmitKeeps(s: State, shared: bool)
    requires Inv(s) && (shared ==> forall read :: read in s.lookups ==> read.revision != s.revision)
    ensures Inv(Submit(s, shared))
  {
    var s' := Submit(s, shared);
    forall i | 0 <= i < |s.written| ensures WrittenOk(s', s.written[i]) { assert WrittenOk(s, s.written[i]); }
  }

  lemma SameRecords(s: State, s': State)
    requires Inv(s) && s'.history == s.history && s'.thread == s.thread && s'.revision == s.revision
    requires s'.jobs == s.jobs && s'.lookups == s.lookups && s'.written == s.written
             && s'.materialized == s.materialized
    ensures Inv(s')
  {
    forall i | 0 <= i < |s.written| ensures WrittenOk(s', s.written[i]) { assert WrittenOk(s, s.written[i]); }
  }

  lemma LookupKeeps(s: State, read: Read)
    requires Inv(s) && read.revision == s.revision && read.local == s.thread && s.history[s.revision] == [s.thread]
    requires forall job :: job in s.jobs && job.shared ==> job.revision != s.revision
    ensures Inv(s.(lookups := s.lookups + {read}))
  {
    var s' := s.(lookups := s.lookups + {read});
    forall i | 0 <= i < |s.written| ensures WrittenOk(s', s.written[i]) { assert WrittenOk(s, s.written[i]); }
  }

  lemma StartedReadKeepsInv(s: State, turn: Turn, native: bool)
    requires Inv(s) && forall job :: job in s.jobs ==> job.revision < s.revision
    requires s.history[s.revision] == [s.thread]
    ensures Inv(Effects(s, TurnCompleted(turn, native)))
  {
    var read := Read(s.revision, turn.id, if s.active == turn.id then "" else s.active, native, s.thread);
    LookupKeeps(s, read);
    SameRecords(s.(lookups := s.lookups + {read}), Effects(s, TurnCompleted(turn, native)));
  }

  lemma ChangeKeepsInv(s: State, c: Change)
    requires Inv(s) && WellFormedChange(c)
    ensures Inv(ApplyChange(s, c))
  {
    var moved := Advance(s, Changed(s.thread, c));
    AdvanceKeeps(s, Changed(s.thread, c));
    ChangedKeepsTurns(s.thread, c);
    match c
    case ItemCompleted(_, _) => SubmitKeeps(moved, false);
    case Refreshed(_) => SubmitKeeps(moved, true);
    case TurnCompleted(turn, native) => if !s.closed { StartedReadKeepsInv(moved, turn, native); }
    case _ => SameRecords(moved, ApplyChange(s, c));
  }

  lemma FinishKeepsInv(s: State, read: Read, remote: Thread, swap: bool)
    requires Inv(s) && Enabled(s, Finish(read, remote, swap))
    ensures Inv(Apply(s, Finish(read, remote, swap)))
  {
    AdvanceKeeps(s, AfterRead(s.thread, read, remote, swap));
    AfterReadKeepsTurns(s.thread, read, remote, swap);
    SubmitKeeps(Advance(s, AfterRead(s.thread, read, remote, swap)), read.native);
  }

  lemma RewriteKeeps(s: State, captured: map<string, Turn>)
    requires Inv(s) && forall read :: read in s.lookups ==> read.revision != s.revision
    ensures Inv(Rewrite(s, Rewritten(s.thread, captured)))
  {
    var s' := Rewrite(s, Rewritten(s.thread, captured));
    OneMoreVersion(s.history[s.revision], captured);
    forall revision, t | AsOf(s, revision, t) ensures AsOf(s', revision, t) {}
    forall i | 0 <= i < |s.written| ensures WrittenOk(s', s.written[i]) { assert WrittenOk(s, s.written[i]); }
  }

  lemma RecordWritten(s: State, w: Written)
    requires Inv(s) && w.revision == s.revision && s.materialized != s.revision && WrittenOk(s, w)
    ensures Inv(s.(materialized := w.revision, written := s.written + [w]))
  {
    var s' := s.(materialized := w.revision, written := s.written + [w]);
    forall i | 0 <= i < |s'.written| ensures WrittenOk(s', s'.written[i]) {
      if i < |s.written| { assert WrittenOk(s, s.written[i]); }
    }
  }

  lemma WriteKeepsInv(s: State, job: Job, capture: Capture, outcome: Outcome)
    requires Inv(s) && CanWrite(s, job, capture)
    ensures Inv(ApplyWrite(s, job, capture, outcome))
  {
    if Effective(s, job) && !outcome.Unread? {
      var source := Source(s, job);
      var merged := if job.shared then Rewrite(s, Rewritten(s.thread, capture.turns)) else s;
      if job.shared { RewriteKeeps(s, capture.turns); }
      assert AsOf(s, job.revision, job.thread) && AsOf(merged, s.revision, source);
      if outcome.Done? { RecordWritten(merged, Written(job.revision, source, ShownOf(source, capture))); }
    }
  }

  lemma FireKeepsInv(s: State)
    requires Inv(s) && Enabled(s, Fire)
    ensures Inv(Apply(s, Fire))
  {
    SubmitKeeps(s, false);
    if s.closed { SameRecords(s, Apply(s, Fire)); } else { SameRecords(Submit(s, false), Apply(s, Fire)); }
  }

  lemma ReplyKeepsInv(s: State, turnID: string)
    requires Inv(s) && Enabled(s, PromptReply(turnID))
    ensures Inv(Apply(s, PromptReply(turnID)))
  {
    AdvanceKeeps(s, s.thread);
    if turnID != "" && turnID !in s.completed {
      SameRecords(Advance(s, s.thread), Apply(s, PromptReply(turnID)));
    }
  }

  lemma OtherStepKeepsInv(s: State, step: Step)
    requires Inv(s) && (step.SteerReply? || step.Idle? || step.Schedule? || step.Close?)
    ensures Inv(Apply(s, step))
  {
    SameRecords(s, Apply(s, step));
  }

  lemma StepKeepsInv(s: State, step: Step)
    requires Inv(s) && Enabled(s, step)
    ensures Inv(Apply(s, step))
  {
    match step
    case Changing(c) => ChangeKeepsInv(s, c);
    case Finish(read, remote, swap) => FinishKeepsInv(s, read, remote, swap);
    case Write(job, capture, outcome) => WriteKeepsInv(s, job, capture, outcome);
    case Fire => FireKeepsInv(s);
    case PromptReply(turnID) => ReplyKeepsInv(s, turnID);
    case _ => OtherStepKeepsInv(s, step);
  }

  lemma StartsInv(thread: Thread, capture: Capture)
    requires DistinctTurns(thread.turns) && ValidCapture(thread, capture)
    ensures Inv(Start(thread, capture))
  {
    var s := Start(thread, capture);
    OneMoreVersion([thread], capture.turns);
    assert [thread] + [Rewritten(thread, capture.turns)] == s.history[0];
    assert thread in s.history[0] && Shows(s.written[0].shown, thread);
  }

  lemma {:induction false} RunKeepsInv(s: State, steps: seq<Step>, end: State)
    requires Inv(s) && Run(s, steps, end)
    ensures Inv(end)
    decreases steps
  {
    if steps != [] {
      StepKeepsInv(s, steps[0]);
      RunKeepsInv(Apply(s, steps[0]), steps[1..], end);
    }
  }

  /** Over every run: the revisions of the projections written strictly increase; each is made from the
      thread as of its revision and shows that thread merged with captured tool activity; every snapshot
      submitted is the thread as of its revision; and turn ids stay distinct. */
  lemma EveryRunIsSafe(thread: Thread, capture: Capture, steps: seq<Step>, end: State)
    requires DistinctTurns(thread.turns) && ValidCapture(thread, capture) && Run(Start(thread, capture), steps, end)
    ensures forall i, j :: 0 <= i < j < |end.written| ==> end.written[i].revision < end.written[j].revision
    ensures forall i :: 0 <= i < |end.written| ==>
              AsOf(end, end.written[i].revision, end.written[i].source)
                && Shows(end.written[i].shown, end.written[i].source)
    ensures forall job :: job in end.jobs ==> AsOf(end, job.revision, job.thread)
    ensures forall r :: 0 <= r < |end.history| ==> Versions(end.history[r])
    ensures DistinctTurns(end.thread.turns)
  {
    StartsInv(thread, capture);
    RunKeepsInv(Start(thread, capture), steps, end);
    forall i | 0 <= i < |end.written|
      ensures AsOf(end, end.written[i].revision, end.written[i].source)
              && Shows(end.written[i].shown, end.written[i].source)
    {
      assert WrittenOk(end, end.written[i]);
    }
  }

  /** After a write of shared turns the worker has what the projection shows of them. */
  lemma SharedWriteAgrees(s: State, job: Job, capture: Capture)
    requires CanWrite(s, job, capture) && Effective(s, job) && job.shared
    ensures var s' := ApplyWrite(s, job, capture, Done);
            && s'.written == s.written + [Written(job.revision, s.thread, ShownOf(s.thread, capture))]
            && ShownOf(s.thread, capture).turns[..|s.thread.turns|] == s'.thread.turns
            && s'.revision == s.revision
  {
    ShownIsRewritten(s.thread, capture);
  }

  /** A revision's versions are only ever added to, and those of an earlier revision are settled. */
  ghost predicate Extends(before: seq<seq<Thread>>, after: seq<seq<Thread>>, revision: nat) {
    && |before| <= |after|
    && (forall r :: 0 <= r < |before| ==> before[r] <= after[r])
    && (forall r :: 0 <= r < |before| && r < revision ==> before[r] == after[r])
  }

  lemma StepExtends(s: State, step: Step)
    requires Enabled(s, step)
    ensures Extends(s.history, Apply(s, step).history, s.revision)
  {}

  lemma StepMovesOn(s: State, step: Step)
    requires Enabled(s, step)
    ensures s.revision <= Apply(s, step).revision && s.written <= Apply(s, step).written
  {}

  /** What was recorded or written at a revision is never lost, and at an earlier revision nothing is
      added any more. */
  lemma {:induction false} HistoryIsKept(s: State, steps: seq<Step>, end: State)
    requires Run(s, steps, end)
    ensures Extends(s.history, end.history, s.revision) && s.revision <= end.revision && s.written <= end.written
    decreases steps
  {
    if steps != [] {
      StepExtends(s, steps[0]);
      StepMovesOn(s, steps[0]);
      HistoryIsKept(Apply(s, steps[0]), steps[1..], end);
    }
  }

  /** A read after completion takes effect only if nothing has changed since the turn completed, and
      then what it protects is what the worker has now. */
  lemma DelayedReadNeedsQuiet(s: State, read: Read, remote: Thread, swap: bool)
    requires Inv(s) && Enabled(s, Finish(read, remote, swap)) && Apply(s, Finish(read, remote, swap)) != s
    ensures !s.closed && s.revision == read.revision && s.thread == read.local
    ensures read.native ==>
              forall id :: id in [read.turnID, read.newer] && id != "" && HasTurn(s.thread.turns, id) ==>
                s.thread.turns[TurnAt(s.thread.turns, id)] in Apply(s, Finish(read, remote, swap)).thread.turns
  {
    assert s.history[s.revision] == [read.local];
    if read.native {
      PreservedIs(remote.turns, read.local.turns, Order(read, swap));
      forall id | id in [read.turnID, read.newer] && id != "" ensures id in Order(read, swap) {
        InOrder(read, swap, id);
      }
    }
  }

  lemma InOrder(read: Read, swap: bool, id: string)
    requires id in [read.turnID, read.newer] && id != ""
    ensures id in Order(read, swap)
  {}

  // ---------------------------------------------------------------- item ids

  /** The item ids of every turn, of the thread and of the snapshots that reads keep, are distinct. */
  ghost predicate ItemsDistinct(s: State) {
    WellFormed(s.thread.turns) && forall read :: read in s.lookups ==> WellFormed(read.local.turns)
  }

  ghost predicate ThreadFits(thread: Thread, captured: map<string, Turn>) {
    forall k :: 0 <= k < |thread.turns| ==> TurnFits(thread.turns[k], captured)
  }

  /** A rewritten thread has distinct item ids exactly if every turn fits what was captured for it. */
  lemma RewrittenIsDistinct(thread: Thread, capture: Capture)
    requires WellFormed(thread.turns) && ValidCapture(thread, capture)
    ensures WellFormed(Rewritten(thread, capture.turns).turns) <==> ThreadFits(thread, capture.turns)
  {
    var r := Rewritten(thread, capture.turns).turns;
    forall k | 0 <= k < |thread.turns| ensures DistinctItems(r[k].items) <==> TurnFits(thread.turns[k], capture.turns) {
      MergedTurnIsDistinct(thread.turns[k], capture.turns);
    }
  }

  /** The step rewrites the worker's turns with captured items that do not fit them. */
  ghost predicate Misfits(s: State, step: Step) {
    && step.Write? && step.job.shared && Effective(s, step.job) && !step.outcome.Unread?
    && !ThreadFits(s.thread, step.capture.turns)
  }

  lemma ChangedKeepsItems(thread: Thread, c: Change)
    requires WellFormed(thread.turns) && WellFormedChange(c)
    ensures WellFormed(Changed(thread, c).turns)
  {
    match c
    case TurnStarted(turn) => PutTurnKeepsForm(thread.turns, turn);
    case LiveItem(turnID, item) => PutItemInKeepsForm(thread.turns, turnID, item, "inProgress");
    case Delta(turnID, itemID, kind, field, delta) =>
      PutDeltaKeepsForm(thread.turns, turnID, itemID, kind, field, delta);
    case ItemCompleted(turnID, item) => PutItemInKeepsForm(thread.turns, turnID, item, "");
    case TurnCompleted(turn, _) => MergeCompletedKeepsForm(thread.turns, turn);
    case _ =>
  }

  lemma AfterReadKeepsItems(thread: Thread, read: Read, remote: Thread, swap: bool)
    requires WellFormed(thread.turns) && WellFormed(read.local.turns) && WellFormed(remote.turns)
    ensures WellFormed(AfterRead(thread, read, remote, swap).turns)
  {
    if read.native {
      PreservedKeepsForm(remote.turns, read.local.turns, Order(read, swap));
    } else {
      PutAllKeepsForm(thread.turns, remote.turns);
    }
  }

  /** Item ids stay distinct exactly as long as no shared write merges captured items that do not fit. */
  lemma ItemIdsStay(s: State, step: Step)
    requires ItemsDistinct(s) && Enabled(s, step)
    ensures ItemsDistinct(Apply(s, step)) <==> !Misfits(s, step)
  {
    match step
    case Changing(c) => ChangedKeepsItems(s.thread, c);
    case Finish(read, remote, swap) => AfterReadKeepsItems(s.thread, read, remote, swap);
    case Write(job, capture, _) => if job.shared { RewrittenIsDistinct(s.thread, capture); }
    case _ =>
  }

  ghost predicate NeverMisfits(s: State, steps: seq<Step>)
    decreases steps
  {
    steps == [] || (Enabled(s, steps[0]) && !Misfits(s, steps[0]) && NeverMisfits(Apply(s, steps[0]), steps[1..]))
  }

  lemma {:induction false} FittingRunsKeepItemIds(s: State, steps: seq<Step>, end: State)
    requires ItemsDistinct(s) && Run(s, steps, end) && NeverMisfits(s, steps)
    ensures ItemsDistinct(end)
    decreases steps
  {
    if steps != [] {
      ItemIdsStay(s, steps[0]);
      FittingRunsKeepItemIds(Apply(s, steps[0]), steps[1..], end);
    }
  }

  /** Opening a session whose last message is read back with another text than was captured leaves the
      worker with two items of one id. */
  lemma OpeningCanDuplicate(thread: Thread, capture: Capture)
    requires thread.turns == [Turn("1", "", 0, 0, [Message("m", "b")])]
    requires capture == Capture(map["1" := Turn("1", "", 0, 0, [Message("m", "a"), Item("t", "webSearch", map[])])], [])
    ensures ValidCapture(thread, capture) && WellFormed(thread.turns) && !ItemsDistinct(Start(thread, capture))
  {
    var turn, captured := thread.turns[0], capture.turns["1"];
    assert IsTool(captured.items[1]);
    assert TurnIds(thread.turns) == {"1"} by { assert thread.turns[0].id == "1"; }
    assert !HasTool(turn.items);
    IdsCanMeet();
    RewrittenIsDistinct(thread, capture);
    assert !TurnFits(turn, capture.turns);
  }

  // ---------------------------------------------------------------- the active turn

  ghost predicate ActiveIsLive(s: State) {
    s.active == "" || s.active !in s.completed
  }

  /** The active turn is never one that has completed, unless a steer reply names a completed turn:
      that reply is taken without the check that the reply to a new turn gets. */
  lemma ActiveStaysLive(s: State, step: Step)
    requires ActiveIsLive(s) && Enabled(s, step)
    ensures ActiveIsLive(Apply(s, step)) <==> !(step.SteerReply? && step.turnID != "" && step.turnID in s.completed)
  {}

  /** It does happen: the turn completes while the steer request is under way. */
  lemma SteerCanReviveTurn(thread: Thread, capture: Capture, turn: Turn) returns (end: State)
    requires ValidCapture(thread, capture) && turn.id != "" && DistinctItems(turn.items)
    ensures Run(Start(thread, capture),
                [Changing(TurnStarted(turn)), Changing(TurnCompleted(turn, true)), SteerReply(turn.id)], end)
    ensures end.active == turn.id && turn.id in end.completed
  {
    var steps := [Changing(TurnStarted(turn)), Changing(TurnCompleted(turn, true)), SteerReply(turn.id)];
    var s0 := Start(thread, capture);
    var s1 := Apply(s0, steps[0]);
    var s2 := Apply(s1, steps[1]);
    end := Apply(s2, steps[2]);
    assert steps[1..][0] == steps[1] && steps[1..][1..] == steps[2..] && steps[2..][0] == steps[2]
           && steps[2..][1..] == [];
    assert Run(end, [], end) && Run(s2, steps[2..], end) && Run(s1, steps[1..], end);
  }

  // ---------------------------------------------------------------- the worker itself

  class Worker {
    var thread: Thread
    var revision: nat
    var active: string
    var completed: set<string>
    var closed: bool
    var pending: bool
    var materialized: nat
    ghost var jobs: set<Job>
    ghost var lookups: set<Read>
    ghost var written: seq<Written>
    ghost var history: seq<seq<Thread>>

    ghost function Abs(): State
      reads this
    {
      State(thread, revision, active, completed, closed, pending, materialized, jobs, lookups, written, history)
    }

    /** NewWorker, once the thread is read: its projection is written from the worker's own turns. */
    constructor (full: Thread, captured: map<string, Turn>, ghost capture: Capture)
      requires capture.turns == captured && ValidCapture(full, capture)
      ensures Abs() == Start(full, capture)
    {
      var now := Rewritten(full, captured);
      thread, revision, active, completed := now, 0, ActiveTurn(full.turns), {};
      closed, pending, materialized := false, false, 0;
      jobs, lookups, written, history := {}, {}, [Written(0, full, ShownOf(full, capture))], [[full, now]];
    }

    /** The position of a turn. */
    method FindTurn(id: string) returns (k: nat)
      ensures k == TurnAt(thread.turns, id)
    {
      var turns := thread.turns;
      k := 0;
      while k < |turns| && turns[k].id != id
        invariant k <= TurnAt(turns, id)
      {
        k := k + 1;
      }
    }

    method FindItem(items: seq<Item>, id: string) returns (k: nat)
      ensures k == ItemAt(items, id)
    {
      k := 0;
      while k < |items| && items[k].id != id
        invariant k <= ItemAt(items, id)
      {
        k := k + 1;
      }
    }

    method UpsertTurnLocked(turn: Turn)
      modifies this`thread
      ensures thread == old(thread).(turns := PutTurn(old(thread).turns, turn))
    {
      var turns := thread.turns;
      var k := FindTurn(turn.id);
      thread := thread.(turns := if k < |turns| then turns[k := turn] else turns + [turn]);
    }

    /** upsertItemLocked, and with an empty status the same loop of applyCompletedItem. */
    method UpsertItemLocked(turnID: string, item: Item, status: string)
      modifies this`thread
      ensures thread == old(thread).(turns := PutItemIn(old(thread).turns, turnID, item, status))
    {
      var turns := thread.turns;
      var k := FindTurn(turnID);
      if k == |turns| {
        thread := thread.(turns := turns + [Turn(turnID, status, 0, 0, [item])]);
        return;
      }
      var items := turns[k].items;
      var i := FindItem(items, item.id);
      items := if i < |items| then items[i := item] else items + [item];
      thread := thread.(turns := turns[k := turns[k].(items := items)]);
    }

    method MergeCompletedTurnLocked(done: Turn)
      requires DistinctItems(done.items)
      modifies this`thread
      ensures thread == old(thread).(turns := MergeCompleted(old(thread).turns, done))
    {
      var turns := thread.turns;
      var k := FindTurn(done.id);
      if k == |turns| {
        thread := thread.(turns := turns + [done]);
        return;
      }
      var turn := turns[k];
      var items := MergeItemSnapshots(done.items, turn.items);
      turn := turn.(items := items);
      if done.status != "" { turn := turn.(status := done.status); }
      if done.started != 0 { turn := turn.(started := done.started); }
      if done.completed != 0 { turn := turn.(completed := done.completed); }
      thread := thread.(turns := turns[k := turn]);
    }

    /** Every change of the thread moves the revision in the same critical section. */
    method Bump()
      modifies this`revision, this`history
      ensures revision == old(revision) + 1 && history == old(history) + [[thread]]
    {
      revision := revision + 1;
      history := history + [[thread]];
    }

    method StartTurn(turn: Turn)
      modifies this
      ensures Abs() == ApplyChange(old(Abs()), TurnStarted(turn))
    {
      completed := completed - {turn.id};
      active := turn.id;
      UpsertTurnLocked(turn);
      Bump();
    }

    method ApplyLiveItem(turnID: string, item: Item)
      modifies this
      ensures Abs() == ApplyChange(old(Abs()), LiveItem(turnID, item))
    {
      UpsertItemLocked(turnID, item, "inProgress");
      Bump();
    }

    method ApplyDelta(turnID: string, itemID: string, kind: string, field: string, delta: string)
      modifies this
      ensures Abs() == ApplyChange(old(Abs()), Delta(turnID, itemID, kind, field, delta))
    {
      var item := CurrentItem(turnID, itemID, kind);
      UpsertItemLocked(turnID, Extended(item, kind, field, delta), "inProgress");
      Bump();
    }

    /** The item a delta goes to, or a placeholder. */
    method CurrentItem(turnID: string, itemID: string, kind: string) returns (item: Item)
      ensures var known := ItemOf(thread.turns, turnID, itemID);
              item == if known.Some? then known.value else Item(itemID, kind, map[])
    {
      var turns := thread.turns;
      var k := FindTurn(turnID);
      if k < |turns| {
        var i := FindItem(turns[k].items, itemID);
        if i < |turns[k].items| {
          return turns[k].items[i];
        }
      }
      return Item(itemID, kind, map[]);
    }

    method ApplyCompletedItem(turnID: string, item: Item) returns (ghost job: Job)
      modifies this
      ensures Abs() == ApplyChange(old(Abs()), ItemCompleted(turnID, item))
      ensures job == Job(revision, thread, false)
    {
      UpsertItemLocked(turnID, item, "");
      Bump();
      job := Job(revision, thread, false);
      jobs := jobs + {job};
    }

    /** completeTurn's critical section. */
    method CompleteTurn(turn: Turn, native: bool) returns (started: bool)
      requires DistinctItems(turn.items)
      modifies this
      ensures Abs() == ApplyChange(old(Abs()), TurnCompleted(turn, native)) && started == !old(closed)
    {
      if closed {
        return false;
      }
      MergeCompletedTurnLocked(turn);
      Bump();
      StartRead(turn, native);
      return true;
    }

    /** Its second half: the turn is over, and its read protects what is known now. */
    method StartRead(turn: Turn, native: bool)
      modifies this`completed, this`active, this`lookups
      ensures Abs() == Effects(old(Abs()), TurnCompleted(turn, native))
    {
      completed := completed + {turn.id};
      if active == turn.id {
        active := "";
      }
      lookups := lookups + {Read(revision, turn.id, active, native, thread)};
    }

    /** A read that a notification asked for: the worker keeps the very thread that it then writes. */
    method Refresh(remote: Thread)
      modifies this
      ensures Abs() == ApplyChange(old(Abs()), Refreshed(remote))
    {
      thread := remote;
      Bump();
      jobs := jobs + {Job(revision, thread, true)};
    }

    /** The end of its background read. `swap` is how the protected turns happen to be visited. */
    method FinishRead(read: Read, remote: Thread, swap: bool) returns (effective: bool)
      requires DistinctTurns(read.local.turns)
      modifies this
      ensures effective <==> !old(closed) && old(revision) == read.revision
      ensures !effective ==> Abs() == old(Abs())
      ensures effective ==>
                Abs() == Submit(Advance(old(Abs()), AfterRead(old(thread), read, remote, swap)), read.native)
    {
      if closed || revision != read.revision {
        return false;
      }
      if read.native {
        var turns := PreserveLocalTurns(remote.turns, read.local.turns, Order(read, swap));
        thread := remote.(turns := turns);
      } else {
        UpsertAllLocked(remote.turns);
      }
      Bump();
      jobs := jobs + {Job(revision, thread, read.native)};
      return true;
    }

    method UpsertAllLocked(more: seq<Turn>)
      modifies this`thread
      ensures thread == old(thread).(turns := PutAll(old(thread).turns, more))
    {
      for i := 0 to |more|
        invariant thread == old(thread).(turns := PutAll(old(thread).turns, more[..i]))
      {
        assert more[..i + 1][..i] == more[..i];
        UpsertTurnLocked(more[i]);
      }
      assert more[..|more|] == more;
    }

    method ScheduleMaterialize() returns (start: bool)
      modifies this`pending
      ensures pending == (old(pending) || !closed) && start == (!closed && !old(pending))
    {
      if closed || pending {
        return false;
      }
      pending := true;
      return true;
    }

    /** materializeRevision, with the writer's merge: an older snapshot never replaces the projection, and
        a shared one takes the worker's own turns along. */
    method MaterializeRevision(job: Job, captured: map<string, Turn>, outcome: Outcome) returns (ghost capture: Capture)
      requires job in jobs && revision < |history|
      requires forall id :: id in captured ==>
                 captured[id].id == id && DistinctItems(captured[id].items) && HasTool(captured[id].items)
      modifies this`thread, this`materialized, this`written, this`history
      ensures !Effective(old(Abs()), job) || outcome.Unread? ==> Abs() == old(Abs())
      ensures Effective(old(Abs()), job) && !outcome.Unread? ==>
                && capture.turns == captured && CanWrite(old(Abs()), job, capture)
                && Abs() == ApplyWrite(old(Abs()), job, capture, outcome)
    {
      capture := Capture(captured, []);
      if closed || revision != job.revision || materialized == job.revision || outcome.Unread? {
        return;
      }
      var source := if job.shared then thread else job.thread;
      var shown, order := MergeCapturedToolTurns(source, captured);
      capture := Capture(captured, order);
      ShownIsRewritten(source, capture);
      if job.shared {
        thread := thread.(turns := shown.turns[..|thread.turns|]);
        history := history[revision := history[revision] + [thread]];
      }
      if outcome.Done? {
        materialized := job.revision;
        written := written + [Written(job.revision, source, shown)];
      }
    }
  }
}
