/** Tool activity over whole runs of a Codex worker: the projection file of the session beside the
    worker. Each write reads back what the file holds and replaces it, and the catalog may refresh the
    same file in between; internal/codex/worker.go and projection.go. */
module CodexDurability {
  import opened CodexItems
  import opened CodexThread
  import opened CodexToolActivity
  import opened CodexWorker

  datatype World = World(worker: State, file: seq<Line>)

  /** A step of the worker, or a refresh of the same projection by the catalog. A write that fails may
      have renamed the new file into place all the same; `locals` are the lines that are not Codex's. */
  datatype Move =
    | Own(step: Step, renamed: bool, locals: seq<Line>)
    | Elsewhere(thread: Thread, turnOrder: seq<string>, locals: seq<Line>)

  ghost predicate Reads(w: World, move: Move) {
    move.Own? && move.step.Write? && Effective(w.worker, move.step.job) && !move.step.outcome.Unread?
  }

  /** The move replaces the file. */
  ghost predicate Replaces(w: World, move: Move) {
    move.Elsewhere? || (Reads(w, move) && (move.step.outcome.Done? || move.renamed))
  }

  /** The snapshot that the file is made from, and the order of the captured turns it lacks. */
  ghost function Native(w: World, move: Move): Thread
    requires Replaces(w, move)
  {
    if move.Elsewhere? then move.thread else Source(w.worker, move.step.job)
  }

  ghost function OrderOf(w: World, move: Move): seq<string>
    requires Replaces(w, move)
  {
    if move.Elsewhere? then move.turnOrder else move.step.capture.order
  }

  ghost predicate CanMove(w: World, move: Move) {
    && (forall i :: 0 <= i < |move.locals| ==> move.locals[i].turnId == "")
    && match move
       case Own(step, _, _) => Enabled(w.worker, step) && (Reads(w, move) ==> step.capture.turns == Captured(w.file))
       case Elsewhere(thread, order, locals) =>
         DistinctTurns(thread.turns) && ValidRefresh(w.file, thread, order, locals)
  }

  ghost function Moved(w: World, move: Move): World
    requires CanMove(w, move)
  {
    World(if move.Own? then Apply(w.worker, move.step) else w.worker,
          if Replaces(w, move) then Refresh(w.file, Native(w, move), OrderOf(w, move), move.locals) else w.file)
  }

  ghost predicate Moves(w: World, moves: seq<Move>, end: World)
    decreases moves
  {
    if moves == [] then end == w
    else CanMove(w, moves[0]) && Moves(Moved(w, moves[0]), moves[1..], end)
  }

  /** NewWorker, with the projection the session had. */
  ghost function Opened(thread: Thread, capture: Capture, file: seq<Line>, locals: seq<Line>): World
    requires ValidCapture(thread, capture) && capture.turns == Captured(file)
  {
    World(Start(thread, capture), Refresh(file, thread, capture.order, locals))
  }

  /** The worker's own steps. */
  function StepsOf(moves: seq<Move>): seq<Step> {
    if moves == [] then []
    else if moves[0].Own? then [moves[0].step] + StepsOf(moves[1..])
    else StepsOf(moves[1..])
  }

  /** What the worker does in such a run is a run of the worker. */
  lemma {:induction false} WorkerRuns(w: World, moves: seq<Move>, end: World)
    requires Moves(w, moves, end)
    ensures Run(w.worker, StepsOf(moves), end.worker)
    decreases moves
  {
    if moves != [] {
      WorkerRuns(Moved(w, moves[0]), moves[1..], end);
      if moves[0].Own? { assert StepsOf(moves)[1..] == StepsOf(moves[1..]); }
    }
  }

  /** After a successful write the file shows what was written last. */
  lemma FileShowsLastWritten(w: World, move: Move)
    requires CanMove(w, move) && Reads(w, move) && move.step.outcome.Done?
    ensures var w' := Moved(w, move);
            && w'.worker.written != []
            && w'.file == Project(w'.worker.written[|w'.worker.written| - 1].shown) + move.locals
  {}

  // ---------------------------------------------------------------- what one refresh keeps

  function ToolIds(items: seq<Item>): set<string> {
    set i | 0 <= i < |items| && IsTool(items[i]) :: items[i].id
  }

  /** The tool items of a turn that the file holds. */
  function HeldTools(file: seq<Line>, turnId: string): set<string> {
    ToolIds(CapturedItems(file, turnId))
  }

  /** The snapshot has the turn, with tools of its own but not with all that the file holds. */
  ghost predicate Displaces(file: seq<Line>, native: Thread, turnId: string) {
    exists k :: 0 <= k < |native.turns| && native.turns[k].id == turnId && HasTool(native.turns[k].items)
                && !(HeldTools(file, turnId) <= ToolIds(AddAll([], native.turns[k].items)))
  }

  /** If the snapshot has no tools in the turn, none of its items reuses the id or the key of one. */
  ghost predicate NoReuse(file: seq<Line>, native: Thread, turnId: string) {
    forall k :: 0 <= k < |native.turns| && native.turns[k].id == turnId && !HasTool(native.turns[k].items) ==>
      forall n :: n in native.turns[k].items ==> Fits(CapturedItems(file, turnId), n)
  }

  ghost predicate OwnTools(native: Thread, turnId: string) {
    exists k :: 0 <= k < |native.turns| && native.turns[k].id == turnId && HasTool(native.turns[k].items)
  }

  lemma {:induction false} SameToolIds(a: seq<Item>, b: seq<Item>)
    requires Tools(a) == Tools(b)
    ensures ToolIds(a) == ToolIds(b)
  {
    ToolIdsOfTools(a);
    ToolIdsOfTools(b);
  }

  lemma {:induction false} ToolIdsOfTools(items: seq<Item>)
    ensures ToolIds(items) == ToolIds(Tools(items))
  {
    if items != [] {
      var n := |items| - 1;
      ToolIdsOfTools(items[..n]);
      ToolIdsOfMore(items[..n], items[n]);
      assert items == items[..n] + [items[n]];
      if IsTool(items[n]) {
        ToolIdsOfMore(Tools(items[..n]), items[n]);
      } else {
        assert Tools(items) == Tools(items[..n]);
      }
    }
  }

  lemma ToolIdsOfMore(items: seq<Item>, item: Item)
    ensures ToolIds(items + [item]) == ToolIds(items) + if IsTool(item) then {item.id} else {}
  {
    var longer := items + [item];
    assert longer[|items|] == item;
    forall i | 0 <= i < |items| ensures longer[i] == items[i] {}
  }

  /** One refresh keeps every tool item of a turn, unless the snapshot displaces some; and if the
      snapshot has no tools of its own there, it keeps them verbatim and in order. */
  lemma RefreshKeepsHeld(file: seq<Line>, native: Thread, order: seq<string>, locals: seq<Line>, turnId: string)
    requires turnId != "" && DistinctTurns(native.turns) && ValidRefresh(file, native, order, locals)
    requires NoReuse(file, native, turnId)
    ensures var after := Refresh(file, native, order, locals);
            && (HeldTools(file, turnId) <= HeldTools(after, turnId) <==> !Displaces(file, native, turnId))
            && (!OwnTools(native, turnId) ==>
                  Tools(CapturedItems(after, turnId)) == Tools(CapturedItems(file, turnId)))
  {
    if k :| 0 <= k < |native.turns| && native.turns[k].id == turnId && HasTool(native.turns[k].items) {
      NativeTurnReadBack(file, native, order, locals, k);
    } else {
      RefreshKeepsTools(file, native, order, locals, turnId);
      SameToolIds(CapturedItems(file, turnId), CapturedItems(Refresh(file, native, order, locals), turnId));
    }
  }

  // ---------------------------------------------------------------- over whole runs

  /** The versions of a revision have the same turns. */
  lemma {:induction false} VersionsHaveSameTurns(threads: seq<Thread>, j: nat)
    requires Versions(threads) && j < |threads| && DistinctTurns(threads[|threads| - 1].turns)
    ensures DistinctTurns(threads[j].turns)
    decreases |threads| - j
  {
    if j < |threads| - 1 {
      VersionsHaveSameTurns(threads, j + 1);
      assert MergeLeaves(threads[j], threads[j + 1]);
      var captured :| threads[j + 1] == Rewritten(threads[j], captured);
      forall i | 0 <= i < |threads[j].turns| ensures threads[j + 1].turns[i].id == threads[j].turns[i].id {}
    }
  }

  lemma NativeIsDistinct(w: World, move: Move)
    requires Inv(w.worker) && CanMove(w, move) && Replaces(w, move)
    ensures DistinctTurns(Native(w, move).turns)
    ensures ValidRefresh(w.file, Native(w, move), OrderOf(w, move), move.locals)
  {
    if move.Own? && !move.step.job.shared {
      var job, s := move.step.job, w.worker;
      assert AsOf(s, job.revision, job.thread);
      var j :| 0 <= j < |s.history[s.revision]| && s.history[s.revision][j] == job.thread;
      VersionsHaveSameTurns(s.history[s.revision], j);
    }
  }

  /** One move keeps the tools that the file holds for a turn if and only if it does not replace the
      file with a snapshot that displaces them. */
  lemma MoveKeepsHeld(w: World, move: Move, turnId: string)
    requires turnId != "" && Inv(w.worker) && CanMove(w, move)
    requires Replaces(w, move) ==> NoReuse(w.file, Native(w, move), turnId)
    ensures HeldTools(w.file, turnId) <= HeldTools(Moved(w, move).file, turnId)
            <==> !(Replaces(w, move) && Displaces(w.file, Native(w, move), turnId))
    ensures !(Replaces(w, move) && OwnTools(Native(w, move), turnId)) ==>
              Tools(CapturedItems(Moved(w, move).file, turnId)) == Tools(CapturedItems(w.file, turnId))
  {
    if Replaces(w, move) {
      NativeIsDistinct(w, move);
      RefreshKeepsHeld(w.file, Native(w, move), OrderOf(w, move), move.locals, turnId);
    }
  }

  /** No write of the run reuses ids or keys of the turn's tools, and none displaces any. */
  ghost predicate NeverDisplaces(w: World, moves: seq<Move>, turnId: string)
    decreases moves
  {
    moves == [] ||
    (&& CanMove(w, moves[0])
     && (Replaces(w, moves[0]) ==>
           NoReuse(w.file, Native(w, moves[0]), turnId) && !Displaces(w.file, Native(w, moves[0]), turnId))
     && NeverDisplaces(Moved(w, moves[0]), moves[1..], turnId))
  }

  /** Nor has any snapshot that is written tools of its own in the turn. */
  ghost predicate NeverOwnTools(w: World, moves: seq<Move>, turnId: string)
    decreases moves
  {
    moves == [] ||
    (&& CanMove(w, moves[0]) && (Replaces(w, moves[0]) ==> !OwnTools(Native(w, moves[0]), turnId))
     && NeverOwnTools(Moved(w, moves[0]), moves[1..], turnId))
  }

  /** Tool activity survives every run of the worker in which no write displaces it, whatever the
      worker, its reads and the catalog do; verbatim and in order if no snapshot has tools there. */
  lemma {:induction false} ToolsSurviveRuns(w: World, moves: seq<Move>, end: World, turnId: string)
    requires turnId != "" && Inv(w.worker) && Moves(w, moves, end) && NeverDisplaces(w, moves, turnId)
    ensures HeldTools(w.file, turnId) <= HeldTools(end.file, turnId)
    ensures NeverOwnTools(w, moves, turnId) ==>
              Tools(CapturedItems(end.file, turnId)) == Tools(CapturedItems(w.file, turnId))
    decreases moves
  {
    if moves != [] {
      MoveKeepsHeld(w, moves[0], turnId);
      if moves[0].Own? { StepKeepsInv(w.worker, moves[0].step); }
      ToolsSurviveRuns(Moved(w, moves[0]), moves[1..], end, turnId);
    }
  }

  /** From the projection that a session had before it was opened to any later one. */
  lemma SessionsKeepTools(thread: Thread, capture: Capture, file: seq<Line>, locals: seq<Line>, moves: seq<Move>,
                          end: World, turnId: string)
    requires turnId != "" && DistinctTurns(thread.turns) && ValidCapture(thread, capture)
    requires capture.turns == Captured(file) && forall i :: 0 <= i < |locals| ==> locals[i].turnId == ""
    requires NoReuse(file, thread, turnId) && !Displaces(file, thread, turnId)
    requires Moves(Opened(thread, capture, file, locals), moves, end)
    requires NeverDisplaces(Opened(thread, capture, file, locals), moves, turnId)
    ensures HeldTools(file, turnId) <= HeldTools(end.file, turnId)
  {
    StartsInv(thread, capture);
    RefreshKeepsHeld(file, thread, capture.order, locals, turnId);
    ToolsSurviveRuns(Opened(thread, capture, file, locals), moves, end, turnId);
  }

  /** Once the worker's own turns have been written, nothing of them is displaced until they change. */
  lemma SharedWriteSettles(w: World, move: Move, turnId: string)
    requires turnId != "" && Inv(w.worker) && CanMove(w, move) && Reads(w, move) && Replaces(w, move)
    requires move.step.job.shared
    ensures !Displaces(Moved(w, move).file, Moved(w, move).worker.thread, turnId)
  {
    var thread, order := w.worker.thread, move.step.capture.order;
    var after, merged := Moved(w, move).file, Moved(w, move).worker.thread;
    NativeIsDistinct(w, move);
    assert merged == Rewritten(thread, Captured(w.file)) && after == Refresh(w.file, thread, order, move.locals);
    forall k | 0 <= k < |merged.turns| && merged.turns[k].id == turnId
      ensures CapturedItems(after, turnId) == AddAll([], merged.turns[k].items)
    {
      MergedTurnReadBack(w.file, thread, order, move.locals, k);
    }
  }

  /** What a refresh leaves of a turn that the snapshot has is what the merge leaves of it. */
  lemma MergedTurnReadBack(file: seq<Line>, native: Thread, order: seq<string>, locals: seq<Line>, k: nat)
    requires DistinctTurns(native.turns) && ValidRefresh(file, native, order, locals)
    requires k < |native.turns| && native.turns[k].id != ""
    ensures CapturedItems(Refresh(file, native, order, locals), native.turns[k].id) ==
            AddAll([], MergeTurn(native.turns[k], Captured(file)).items)
  {
    var merged := Merge(native, Captured(file), order);
    CapturedAppendForeign(Project(merged), locals, native.turns[k].id);
    ReadBack(merged, native.turns[k].id);
    ItemsOfNativeTurn(file, native, order, k);
  }

  // ---------------------------------------------------------------- how it gets lost

  function Search(id: string): Item {
    Item(id, "webSearch", map[])
  }

  function OneTurn(items: seq<Item>): Thread {
    Thread("thread", [Turn("1", "inProgress", 0, 0, items)], "")
  }

  lemma OneTurnReadBack(items: seq<Item>)
    requires HasTool(items) && DistinctItems(items) && Identified(items)
    ensures CapturedItems(Project(OneTurn(items)), "1") == items
  {
    assert OneTurn(items).turns[0].id == "1";
    ReadBackExact(OneTurn(items), 0);
  }

  lemma NothingBefore()
    ensures Captured([]) == map[] && forall thread :: ValidCapture(thread, Capture(map[], []))
  {}

  lemma FirstFile(thread: Thread)
    ensures Refresh([], thread, [], []) == Project(thread)
  {
    NothingBefore();
    assert Merge(thread, Captured([]), []) == thread by {
      assert Merge(thread, Captured([]), []).turns == thread.turns;
    }
  }

  /** A tool call in progress, then a read requested by a notification, which lacks tools, then the next
      tool call before that read is written: the file keeps the second tool only. */
  lemma LiveToolDisplaces() returns (w: World, move: Move)
    ensures w.file == Project(OneTurn([Search("t")])) && HeldTools(w.file, "1") == {"t"}
    ensures Captured([]) == map[] && ValidCapture(OneTurn([Search("t")]), Capture(map[], []))
    ensures exists moves :: Moves(Opened(OneTurn([Search("t")]), Capture(map[], []), [], []), moves, w)
    ensures CanMove(w, move) && Replaces(w, move) && HeldTools(Moved(w, move).file, "1") == {"u"}
  {
    NothingBefore();
    FirstFile(OneTurn([Search("t")]));
    w := BetweenReadAndWrite();
    OneTurnReadBack([Search("t")]);
    HoldsOne("t");
    HoldsOne("u");
    move := SecondWrite(w);
  }

  lemma HoldsOne(id: string)
    ensures ToolIds([Search(id)]) == {id} && HasTool([Search(id)])
  {
    assert IsTool([Search(id)][0]);
  }

  lemma SecondWrite(w: World) returns (move: Move)
    requires w.file == Project(OneTurn([Search("t")]))
    requires w.worker.revision == 2 && !w.worker.closed && w.worker.materialized == 0 && |w.worker.history| == 3
    requires Job(2, OneTurn([Search("u")]), false) in w.worker.jobs
    ensures CanMove(w, move) && Replaces(w, move) && CapturedItems(Moved(w, move).file, "1") == [Search("u")]
  {
    var thread, capture := OneTurn([Search("u")]), Capture(Captured(w.file), []);
    SecondToolWritten(w.file);
    move := Own(Write(Job(2, thread, false), capture, Done), false, []);
    assert Native(w, move) == thread && OrderOf(w, move) == [];
  }

  lemma SecondToolWritten(file: seq<Line>)
    requires file == Project(OneTurn([Search("t")]))
    ensures ValidCapture(OneTurn([Search("u")]), Capture(Captured(file), []))
    ensures CapturedItems(Refresh(file, OneTurn([Search("u")]), [], []), "1") == [Search("u")]
  {
    var native := OneTurn([Search("u")]);
    assert TurnIds(native.turns) == {"1"} by { assert native.turns[0].id == "1"; }
    forall id | id in Captured(file) ensures id == "1" && DistinctItems(CapturedItems(file, id)) {
      CapturedHasLine(file, id);
      ReadBack(OneTurn([Search("t")]), id);
      if id != "1" { ItemsOfAbsent(OneTurn([Search("t")]).turns, id); }
    }
    assert IsTool(native.turns[0].items[0]);
    NativeToolsWin(file, native, [], [], 0);
  }

  lemma BetweenReadAndWrite() returns (w: World)
    ensures ValidCapture(OneTurn([Search("t")]), Capture(map[], [])) && Captured([]) == map[]
    ensures exists moves :: Moves(Opened(OneTurn([Search("t")]), Capture(map[], []), [], []), moves, w)
    ensures w.file == Refresh([], OneTurn([Search("t")]), [], [])
    ensures w.worker.thread == OneTurn([Search("u")]) && w.worker.revision == 2 && !w.worker.closed
    ensures w.worker.materialized == 0 && |w.worker.history| == 3
    ensures Job(2, OneTurn([Search("u")]), false) in w.worker.jobs
  {
    NothingBefore();
    var start := Opened(OneTurn([Search("t")]), Capture(map[], []), [], []);
    var read := Own(Changing(Refreshed(OneTurn([]))), false, []);
    var live := Own(Changing(ItemCompleted("1", Search("u"))), false, []);
    var w1 := Moved(start, read);
    w := Moved(w1, live);
    assert PutItem([], Search("u")) == [Search("u")] && OneTurn([]).turns[0].id == "1";
    assert PutItemIn(OneTurn([]).turns, "1", Search("u"), "") == OneTurn([Search("u")]).turns;
    assert Moves(w, [], w) && [live][1..] == [] && Moves(w1, [live], w);
    assert [read, live][1..] == [live] && Moves(start, [read, live], w);
  }
}
