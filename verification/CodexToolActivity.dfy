/** Durable tool activity of Codex sessions, from internal/codex/projection.go: a thread is
    projected to lines, the lines are read back for turns with tool items, and the captured turns
    are merged into the next native snapshot, which may have dropped those items. */
module CodexToolActivity {
  import opened CodexItems

  /** The identity of a projected entry: a digest of its thread, turn and item plus a suffix. */
  datatype EntryId = NoId | EntryId(thread: string, turn: string, item: string, suffix: string)

  /** One line of a projection file; members a line does not carry decode to their empty value. */
  datatype Line = Line(id: EntryId, parent: EntryId, turnId: string, itemId: string, itemType: string, raw: Raw)

  const NoRaw: Raw := map[]
  const Header := Line(NoId, NoId, "", "", "", NoRaw)

  const TOOL_KINDS := {"commandExecution", "fileChange", "mcpToolCall", "dynamicToolCall", "collabAgentToolCall",
                       "subAgentActivity", "webSearch", "imageView", "sleep", "imageGeneration"}

  predicate IsTool(item: Item) {
    item.kind in TOOL_KINDS
  }

  predicate HasTool(items: seq<Item>) {
    exists i :: 0 <= i < |items| && IsTool(items[i])
  }

  function Tools(items: seq<Item>): seq<Item> {
    if items == [] then []
    else Tools(items[..|items| - 1]) + if IsTool(items[|items| - 1]) then [items[|items| - 1]] else []
  }

  // ---------------------------------------------------------------- projecting a thread

  /** A tool item becomes a call and a result; every other item becomes one entry. */
  function ItemLines(threadId: string, turnId: string, item: Item): seq<Line> {
    var line := (suffix: string) =>
      Line(EntryId(threadId, turnId, item.id, suffix), NoId, turnId, item.id, item.kind, item.raw);
    if IsTool(item) then [line("-call"), line("-result")] else [line("")]
  }

  function TurnLines(threadId: string, turnId: string, items: seq<Item>): seq<Line> {
    if items == [] then []
    else TurnLines(threadId, turnId, items[..|items| - 1]) + ItemLines(threadId, turnId, items[|items| - 1])
  }

  function TurnsLines(threadId: string, turns: seq<Turn>): seq<Line> {
    if turns == [] then []
    else
      var turn := turns[|turns| - 1];
      TurnsLines(threadId, turns[..|turns| - 1]) + TurnLines(threadId, turn.id, turn.items)
  }

  /** Every entry's parent is the entry before it. */
  function Chained(lines: seq<Line>): seq<Line> {
    seq(|lines|, i requires 0 <= i < |lines| => lines[i].(parent := if i == 0 then NoId else lines[i - 1].id))
  }

  function Project(thread: Thread): seq<Line> {
    [Header] + Chained(TurnsLines(thread.id, thread.turns))
  }

  // ---------------------------------------------------------------- reading it back

  predicate KnownId(items: seq<Item>, id: string) {
    exists i :: 0 <= i < |items| && items[i].id == id
  }

  /** Append `item` unless it lacks an identity or its id was seen before. */
  function Add(items: seq<Item>, item: Item): seq<Item> {
    if item.id == "" || item.kind == "" || KnownId(items, item.id) then items else items + [item]
  }

  /** The items a projection file holds for one turn: the first line of each item counts. */
  function CapturedItems(lines: seq<Line>, turnId: string): seq<Item> {
    if lines == [] then []
    else
      var line := lines[|lines| - 1];
      var before := CapturedItems(lines[..|lines| - 1], turnId);
      if line.turnId == turnId && turnId != "" then Add(before, Item(line.itemId, line.itemType, line.raw))
      else before
  }

  /** Over several files, the earliest of those holding most items for the turn, if it has a tool. */
  function Best(files: seq<seq<Line>>, turnId: string): seq<Item> {
    if files == [] then []
    else
      Richer(Best(files[..|files| - 1], turnId), CapturedItems(files[|files| - 1], turnId))
  }

  function Richer(best: seq<Item>, items: seq<Item>): seq<Item> {
    if HasTool(items) && |items| > |best| then items else best
  }

  // ---------------------------------------------------------------- the round trip

  function AddAll(items: seq<Item>, more: seq<Item>): seq<Item> {
    if more == [] then items else Add(AddAll(items, more[..|more| - 1]), more[|more| - 1])
  }

  /** All items a thread has under a turn id, in order. */
  function ItemsOf(turns: seq<Turn>, turnId: string): seq<Item> {
    if turns == [] then []
    else ItemsOf(turns[..|turns| - 1], turnId)
         + if turns[|turns| - 1].id == turnId then turns[|turns| - 1].items else []
  }

  lemma CapturedAppendOne(lines: seq<Line>, line: Line, turnId: string)
    requires line.turnId == turnId != ""
    ensures CapturedItems(lines + [line], turnId) ==
            Add(CapturedItems(lines, turnId), Item(line.itemId, line.itemType, line.raw))
  {}

  lemma {:induction false} CapturedAppendForeign(lines: seq<Line>, more: seq<Line>, turnId: string)
    requires forall i :: 0 <= i < |more| ==> more[i].turnId != turnId
    ensures CapturedItems(lines + more, turnId) == CapturedItems(lines, turnId)
  {
    if more == [] {
      assert lines + more == lines;
    } else {
      assert (lines + more)[..|lines + more| - 1] == lines + more[..|more| - 1];
      CapturedAppendForeign(lines, more[..|more| - 1], turnId);
    }
  }

  lemma CapturedAppendItem(lines: seq<Line>, threadId: string, turnId: string, item: Item)
    requires turnId != ""
    ensures CapturedItems(lines + ItemLines(threadId, turnId, item), turnId) == Add(CapturedItems(lines, turnId), item)
  {
    var ls := ItemLines(threadId, turnId, item);
    CapturedAppendOne(lines, ls[0], turnId);
    if IsTool(item) {
      CapturedAppendOne(lines + [ls[0]], ls[1], turnId);
      assert lines + ls == lines + [ls[0]] + [ls[1]];
      assert KnownId(CapturedItems(lines + [ls[0]], turnId), item.id) || item.id == "" || item.kind == "" by {
        var known := CapturedItems(lines, turnId);
        if !KnownId(known, item.id) { assert (known + [item])[|known|].id == item.id; }
      }
    }
  }

  lemma CapturedAppendLast(lines: seq<Line>, threadId: string, turn: string, item: Item, turnId: string)
    requires turnId != ""
    ensures CapturedItems(lines + ItemLines(threadId, turn, item), turnId) ==
            AddAll(CapturedItems(lines, turnId), if turn == turnId then [item] else [])
  {
    var known := CapturedItems(lines, turnId);
    if turn == turnId {
      CapturedAppendItem(lines, threadId, turnId, item);
      assert [item][..0] == [] && AddAll(known, []) == known && AddAll(known, [item]) == Add(known, item);
    } else {
      CapturedAppendForeign(lines, ItemLines(threadId, turn, item), turnId);
    }
  }

  lemma TurnLinesLast(threadId: string, turn: string, items: seq<Item>)
    requires items != []
    ensures TurnLines(threadId, turn, items) ==
            TurnLines(threadId, turn, items[..|items| - 1]) + ItemLines(threadId, turn, items[|items| - 1])
  {}

  lemma Regroup<T>(a: seq<T>, b: seq<T>, c: seq<T>)
    ensures a + (b + c) == a + b + c
  {}

  lemma {:induction false} CapturedAppendTurn(lines: seq<Line>, threadId: string, turn: string, items: seq<Item>,
                                              turnId: string)
    requires turnId != ""
    ensures CapturedItems(lines + TurnLines(threadId, turn, items), turnId) ==
            AddAll(CapturedItems(lines, turnId), if turn == turnId then items else [])
  {
    if items == [] {
      assert lines + [] == lines;
    } else {
      var most, last := items[..|items| - 1], items[|items| - 1];
      CapturedAppendTurn(lines, threadId, turn, most, turnId);
      var before := lines + TurnLines(threadId, turn, most);
      TurnLinesLast(threadId, turn, items);
      Regroup(lines, TurnLines(threadId, turn, most), ItemLines(threadId, turn, last));
      CapturedAppendLast(before, threadId, turn, last, turnId);
      if turn == turnId {
        AddAllAppend(CapturedItems(lines, turnId), most, [last]);
        assert most + [last] == items;
      }
    }
  }

  lemma {:induction false} AddAllAppend(items: seq<Item>, first: seq<Item>, second: seq<Item>)
    ensures AddAll(items, first + second) == AddAll(AddAll(items, first), second)
  {
    if second == [] {
      assert first + second == first;
    } else {
      AddAllAppend(items, first, second[..|second| - 1]);
      assert (first + second)[..|first + second| - 1] == first + second[..|second| - 1];
    }
  }

  lemma {:induction false} CapturedAppendTurns(lines: seq<Line>, threadId: string, turns: seq<Turn>, turnId: string)
    requires turnId != ""
    ensures CapturedItems(lines + TurnsLines(threadId, turns), turnId) ==
            AddAll(CapturedItems(lines, turnId), ItemsOf(turns, turnId))
  {
    if turns == [] {
      assert lines + [] == lines;
    } else {
      var most, last := turns[..|turns| - 1], turns[|turns| - 1];
      var before, tail := TurnsLines(threadId, most), TurnLines(threadId, last.id, last.items);
      var items := if last.id == turnId then last.items else [];
      assert lines + TurnsLines(threadId, turns) == (lines + before) + tail;
      CapturedAppendTurn(lines + before, threadId, last.id, last.items, turnId);
      CapturedAppendTurns(lines, threadId, most, turnId);
      AddAllAppend(CapturedItems(lines, turnId), ItemsOf(most, turnId), items);
    }
  }

  /** Reading does not look at ids or parents. */
  lemma {:induction false} CapturedIgnoresParents(lines: seq<Line>, other: seq<Line>, turnId: string)
    requires |lines| == |other|
    requires forall i :: 0 <= i < |lines| ==>
               lines[i].(id := NoId, parent := NoId) == other[i].(id := NoId, parent := NoId)
    ensures CapturedItems(lines, turnId) == CapturedItems(other, turnId)
  {
    if lines != [] {
      var n := |lines| - 1;
      CapturedIgnoresParents(lines[..n], other[..n], turnId);
      assert lines[n].(id := NoId, parent := NoId) == other[n].(id := NoId, parent := NoId);
    }
  }

  /** Round trip, for every thread: reading back a projection recovers, for every turn id, exactly the
      items with an identity that the thread has under it, in order, first occurrences only. */
  lemma ReadBack(thread: Thread, turnId: string)
    ensures CapturedItems(Project(thread), turnId) ==
            if turnId == "" then [] else AddAll([], ItemsOf(thread.turns, turnId))
  {
    var lines := TurnsLines(thread.id, thread.turns);
    var chained := [Header] + Chained(lines);
    if turnId == "" {
      NothingForNoTurn(chained);
    } else {
      CapturedIgnoresParents(chained, [Header] + lines, turnId);
      CapturedAppendForeign([], [Header], turnId);
      assert [] + [Header] == [Header];
      CapturedAppendTurns([Header], thread.id, thread.turns, turnId);
    }
  }

  lemma NothingForNoTurn(lines: seq<Line>)
    ensures CapturedItems(lines, "") == []
  {}

  ghost predicate Identified(items: seq<Item>) {
    forall i :: 0 <= i < |items| ==> items[i].id != "" && items[i].kind != ""
  }

  lemma {:induction false} AddAllOfDistinct(items: seq<Item>)
    requires DistinctItems(items) && Identified(items)
    ensures AddAll([], items) == items
  {
    if items != [] {
      var n := |items| - 1;
      AddAllOfDistinct(items[..n]);
      assert !KnownId(items[..n], items[n].id);
      assert items == items[..n] + [items[n]];
    }
  }

  lemma {:induction false} ItemsOfDistinct(turns: seq<Turn>, k: nat)
    requires DistinctTurns(turns) && k < |turns|
    ensures ItemsOf(turns, turns[k].id) == turns[k].items
  {
    var n := |turns| - 1;
    if k < n {
      ItemsOfDistinct(turns[..n], k);
    } else {
      ItemsOfAbsent(turns[..n], turns[n].id);
    }
  }

  lemma {:induction false} ItemsOfAbsent(turns: seq<Turn>, turnId: string)
    requires forall i :: 0 <= i < |turns| ==> turns[i].id != turnId
    ensures ItemsOf(turns, turnId) == []
  {
    if turns != [] { ItemsOfAbsent(turns[..|turns| - 1], turnId); }
  }

  /** The round trip on a well-formed thread: every identified turn comes back item for item. */
  lemma ReadBackExact(thread: Thread, k: nat)
    requires DistinctTurns(thread.turns) && k < |thread.turns| && thread.turns[k].id != ""
    requires DistinctItems(thread.turns[k].items) && Identified(thread.turns[k].items)
    ensures CapturedItems(Project(thread), thread.turns[k].id) == thread.turns[k].items
  {
    ReadBack(thread, thread.turns[k].id);
    ItemsOfDistinct(thread.turns, k);
    AddAllOfDistinct(thread.turns[k].items);
  }

  // ---------------------------------------------------------------- merging captured turns

  /** What makes two items the same for a merge: content for messages, identity otherwise. */
  function SemanticKey(item: Item): string {
    item.kind + "\0" + KeyDetail(item)
  }

  function KeyDetail(item: Item): string {
    if item.kind == "userMessage" then UserContent(item.raw)
    else if item.kind == "agentMessage" then
      if TextField(item.raw, "phase") != "" then "phase\0" + TextField(item.raw, "phase")
      else "text\0" + TextField(item.raw, "text")
    else item.id
  }

  /** For each key the last item that has it. */
  function Semantic(items: seq<Item>): (index: map<string, nat>)
    ensures forall key :: key in index ==> index[key] < |items|
  {
    if items == [] then map[]
    else Semantic(items[..|items| - 1])[SemanticKey(items[|items| - 1]) := |items| - 1]
  }

  function MergeInto(merged: seq<Item>, semantic: map<string, nat>, native: seq<Item>): seq<Item>
    requires forall key :: key in semantic ==> semantic[key] < |merged|
    decreases |native|
  {
    if native == [] then merged
    else
      var item := native[0];
      var key := SemanticKey(item);
      if key in semantic then
        MergeInto(if IsTool(item) then merged else merged[semantic[key] := item], semantic, native[1..])
      else MergeInto(merged + [item], semantic[key := |merged|], native[1..])
  }

  function MergeItems(preserved: seq<Item>, native: seq<Item>): seq<Item> {
    MergeInto(preserved, Semantic(preserved), native)
  }

  function MergeTurn(turn: Turn, captured: map<string, Turn>): Turn {
    if turn.id in captured && !HasTool(turn.items)
    then turn.(items := MergeItems(captured[turn.id].items, turn.items)) else turn
  }

  function TurnIds(turns: seq<Turn>): set<string> {
    set i | 0 <= i < |turns| :: turns[i].id
  }

  /** Each native turn takes in what was captured for it; captured turns the snapshot does not have
      are appended, in the order in which the captured table happens to be iterated. */
  function Merge(thread: Thread, captured: map<string, Turn>, order: seq<string>): Thread
    requires forall i :: 0 <= i < |order| ==> order[i] in captured
  {
    thread.(turns :=
      seq(|thread.turns|, i requires 0 <= i < |thread.turns| => MergeTurn(thread.turns[i], captured))
      + seq(|order|, i requires 0 <= i < |order| => captured[order[i]]))
  }

  ghost predicate Lists(order: seq<string>, ids: set<string>) {
    && (forall id :: id in ids <==> id in order)
    && (forall i, j :: 0 <= i < j < |order| ==> order[i] != order[j])
  }

  /** `item` would overwrite the captured item at `i`. */
  ghost predicate Hits(preserved: seq<Item>, item: Item, i: int) {
    SemanticKey(item) in Semantic(preserved) && Semantic(preserved)[SemanticKey(item)] == i
  }

  /** `item` has the semantic key of a captured tool item. */
  ghost predicate Clash(preserved: seq<Item>, item: Item) {
    exists i :: 0 <= i < |preserved| && IsTool(preserved[i]) && Hits(preserved, item, i)
  }

  /** The shape of a merge in progress: captured items keep their places until overwritten by a
      native item with their key, and no tool appears that was not captured. */
  lemma {:induction false} MergeShape(preserved: seq<Item>, merged: seq<Item>, semantic: map<string, nat>,
                                      native: seq<Item>)
    requires !HasTool(native) && |preserved| <= |merged|
    requires forall key :: key in semantic ==> semantic[key] < |merged|
    requires forall key :: key in semantic && semantic[key] < |preserved| ==>
               key in Semantic(preserved) && Semantic(preserved)[key] == semantic[key]
    requires forall key :: key in Semantic(preserved) ==> key in semantic && semantic[key] == Semantic(preserved)[key]
    ensures var r := MergeInto(merged, semantic, native);
            && |merged| <= |r|
            && (forall i :: 0 <= i < |merged| ==> r[i] == merged[i] || r[i] in native)
            && (forall i :: |merged| <= i < |r| ==> r[i] in native)
            && (forall i :: 0 <= i < |preserved| && (forall n :: n in native ==> !Hits(preserved, n, i)) ==>
                  r[i] == merged[i])
            && (forall i, n :: 0 <= i < |preserved| && n in native && Hits(preserved, n, i) ==> r[i] in native)
    decreases |native|
  {
    if native != [] {
      var item, rest := native[0], native[1..];
      var key := SemanticKey(item);
      assert !IsTool(item);
      forall i | 0 <= i < |rest| ensures !IsTool(rest[i]) { assert rest[i] == native[i + 1]; }
      assert native == [item] + rest;
      if key in semantic {
        MergeShape(preserved, merged[semantic[key] := item], semantic, rest);
      } else {
        MergeShape(preserved, merged + [item], semantic[key := |merged|], rest);
      }
    }
  }

  lemma {:induction false} ToolsAppend(first: seq<Item>, second: seq<Item>)
    ensures Tools(first + second) == Tools(first) + Tools(second)
  {
    if second == [] {
      assert first + second == first;
    } else {
      ToolsAppend(first, second[..|second| - 1]);
      assert (first + second)[..|first + second| - 1] == first + second[..|second| - 1];
    }
  }

  lemma {:induction false} NoTools(items: seq<Item>)
    requires forall i :: 0 <= i < |items| ==> !IsTool(items[i])
    ensures Tools(items) == []
  {
    if items != [] { NoTools(items[..|items| - 1]); }
  }

  lemma {:induction false} SameTools(items: seq<Item>, other: seq<Item>)
    requires |items| == |other|
    requires forall i :: 0 <= i < |items| && IsTool(items[i]) ==> other[i] == items[i]
    ensures |Tools(items)| <= |Tools(other)|
    ensures (forall i :: 0 <= i < |items| && IsTool(other[i]) ==> other[i] == items[i]) ==> Tools(items) == Tools(other)
    ensures (exists i :: 0 <= i < |items| && IsTool(other[i]) && !IsTool(items[i])) ==> |Tools(items)| < |Tools(other)|
  {
    if items != [] { SameTools(items[..|items| - 1], other[..|items| - 1]); }
  }

  /** Merging into a native turn without tool items keeps every captured tool item verbatim and in
      order exactly when no native item has the semantic key of a captured tool item. */
  lemma MergeKeepsTools(preserved: seq<Item>, native: seq<Item>)
    requires !HasTool(native)
    ensures Tools(MergeItems(preserved, native)) == Tools(preserved)
            <==> forall n :: n in native ==> !Clash(preserved, n)
  {
    var r, m := MergeItems(preserved, native), |preserved|;
    MergeShape(preserved, preserved, Semantic(preserved), native);
    forall i | 0 <= i < |r| && r[i] in native ensures !IsTool(r[i]) { NativeIsNoTool(native, r[i]); }
    ToolsOfFront(r, m);
    SameTools(r[..m], preserved);
    if n :| n in native && Clash(preserved, n) {
      var i :| 0 <= i < m && IsTool(preserved[i]) && Hits(preserved, n, i);
      assert r[i] in native && !IsTool(r[..m][i]);
    } else {
      forall i | 0 <= i < m && IsTool(preserved[i]) ensures r[..m][i] == preserved[i] {
        forall n | n in native ensures !Hits(preserved, n, i) { assert !Clash(preserved, n); }
      }
    }
  }

  lemma {:induction false} ToolsOfFront(items: seq<Item>, m: nat)
    requires m <= |items| && forall i :: m <= i < |items| ==> !IsTool(items[i])
    ensures Tools(items) == Tools(items[..m])
  {
    if m < |items| {
      var front := items[..|items| - 1];
      ToolsOfFront(front, m);
      assert front[..m] == items[..m];
    } else {
      assert items[..m] == items;
    }
  }

  lemma NativeIsNoTool(native: seq<Item>, item: Item)
    requires !HasTool(native) && item in native
    ensures !IsTool(item)
  {}

  /** Keys clash only if an item kind contains the separator itself. */
  lemma ClashNeedsSeparatorInKind(preserved: seq<Item>, item: Item)
    requires !IsTool(item) && Clash(preserved, item)
    ensures '\0' in item.kind
  {
    var i :| 0 <= i < |preserved| && IsTool(preserved[i]) && Hits(preserved, item, i);
    SemanticHasKey(preserved, SemanticKey(item));
    var t := preserved[i];
    if '\0' !in item.kind {
      ToolKindsHaveNoSeparator(t.kind);
      SeparatorSplits(item.kind, KeyDetail(item), t.kind, KeyDetail(t));
    }
  }

  lemma ToolKindsHaveNoSeparator(kind: string)
    requires kind in TOOL_KINDS
    ensures '\0' !in kind
  {}

  lemma {:induction false} SemanticHasKey(items: seq<Item>, key: string)
    ensures key in Semantic(items) ==> SemanticKey(items[Semantic(items)[key]]) == key
  {
    if items != [] { SemanticHasKey(items[..|items| - 1], key); }
  }

  lemma SeparatorSplits(a: string, x: string, b: string, y: string)
    requires '\0' !in a && '\0' !in b && a + "\0" + x == b + "\0" + y
    ensures a == b
  {
    var s, t := a + "\0" + x, b + "\0" + y;
    assert s[|a|] == '\0' && t[|b|] == '\0';
    assert forall i :: 0 <= i < |a| ==> s[i] == a[i] != '\0';
    assert forall i :: 0 <= i < |b| ==> t[i] == b[i] != '\0';
    assert a == s[..|a|] && b == t[..|b|];
  }

  // ---------------------------------------------------------------- durability across refreshes

  function LineTurns(lines: seq<Line>): set<string> {
    set i | 0 <= i < |lines| :: lines[i].turnId
  }

  /** The turns a projection file yields for the next merge: those with at least one tool item. */
  function Captured(file: seq<Line>): map<string, Turn> {
    map id | id in LineTurns(file) && HasTool(CapturedItems(file, id)) :: Turn(id, "", 0, 0, CapturedItems(file, id))
  }

  /** One refresh of a session's file: merge what the old file captured into the native snapshot and
      project the result, followed by the session's own local lines. */
  function Refresh(file: seq<Line>, native: Thread, order: seq<string>, locals: seq<Line>): seq<Line>
    requires forall i :: 0 <= i < |order| ==> order[i] in Captured(file)
  {
    Project(Merge(native, Captured(file), order)) + locals
  }

  lemma {:induction false} CapturedHasLine(lines: seq<Line>, turnId: string)
    ensures CapturedItems(lines, turnId) != [] ==> turnId in LineTurns(lines)
    ensures DistinctItems(CapturedItems(lines, turnId)) && Identified(CapturedItems(lines, turnId))
  {
    if lines != [] {
      var n := |lines| - 1;
      CapturedHasLine(lines[..n], turnId);
      assert turnId in LineTurns(lines[..n]) ==> turnId in LineTurns(lines) by {
        if turnId in LineTurns(lines[..n]) {
          var i :| 0 <= i < n && lines[..n][i].turnId == turnId;
          assert lines[i].turnId == turnId;
        }
      }
      assert lines[n].turnId in LineTurns(lines);
    }
  }

  /** The native snapshot may have dropped the turn's tools, but must not reuse their ids or keys. */
  ghost predicate DropsTools(file: seq<Line>, native: Thread, turnId: string) {
    && DistinctTurns(native.turns)
    && forall k :: 0 <= k < |native.turns| && native.turns[k].id == turnId ==>
         && !HasTool(native.turns[k].items)
         && forall n :: n in native.turns[k].items ==> Fits(CapturedItems(file, turnId), n)
  }

  ghost predicate Fits(captured: seq<Item>, n: Item) {
    !Clash(captured, n) && forall i :: 0 <= i < |captured| && IsTool(captured[i]) ==> n.id != captured[i].id
  }

  ghost predicate ValidRefresh(file: seq<Line>, native: Thread, order: seq<string>, locals: seq<Line>) {
    && Lists(order, Captured(file).Keys - TurnIds(native.turns))
    && (forall i :: 0 <= i < |order| ==> order[i] in Captured(file))
    && (forall i :: 0 <= i < |locals| ==> locals[i].turnId == "")
  }

  lemma {:induction false} AddAllKnown(items: seq<Item>, id: string)
    ensures KnownId(AddAll([], items), id) ==> KnownId(items, id)
  {
    if items != [] && KnownId(AddAll([], items), id) {
      var n := |items| - 1;
      AddAllKnown(items[..n], id);
      var before := AddAll([], items[..n]);
      var i :| 0 <= i < |AddAll([], items)| && AddAll([], items)[i].id == id;
      if i < |before| {
        assert KnownId(before, id);
        var j :| 0 <= j < n && items[..n][j].id == id;
        assert items[j].id == id;
      } else {
        assert items[n].id == id;
      }
    }
  }

  lemma {:induction false} AddAllKeepsTools(items: seq<Item>)
    requires forall i :: 0 <= i < |items| && IsTool(items[i]) ==>
               items[i].id != "" && items[i].kind != "" && !KnownId(items[..i], items[i].id)
    ensures Tools(AddAll([], items)) == Tools(items)
  {
    if items != [] {
      var n := |items| - 1;
      forall i | 0 <= i < n ensures items[..n][..i] == items[..i] {}
      AddAllKeepsTools(items[..n]);
      var before := AddAll([], items[..n]);
      AddAllKnown(items[..n], items[n].id);
      if before != AddAll([], items) { assert (before + [items[n]])[..|before|] == before; }
    }
  }

  /** Merging keeps the ids of tools unique within the turn, so that they can be read back. */
  lemma MergedToolsReadBack(preserved: seq<Item>, native: seq<Item>)
    requires DistinctItems(preserved) && Identified(preserved) && !HasTool(native)
    requires forall n :: n in native ==> Fits(preserved, n)
    ensures Tools(AddAll([], MergeItems(preserved, native))) == Tools(preserved)
  {
    var r := MergeItems(preserved, native);
    MergeKeepsTools(preserved, native);
    MergeShape(preserved, preserved, Semantic(preserved), native);
    forall i | 0 <= i < |r| && IsTool(r[i])
      ensures r[i].id != "" && r[i].kind != "" && !KnownId(r[..i], r[i].id)
    {
      assert r[i] !in native by { if r[i] in native { NativeIsNoTool(native, r[i]); } }
      assert i < |preserved| && r[i] == preserved[i];
      forall j | 0 <= j < i ensures r[..i][j].id != r[i].id {
        if r[j] in native { assert Fits(preserved, r[j]); }
      }
    }
    AddAllKeepsTools(r);
  }

  /** The turns of a merge: every native turn in its place, and one turn for each listed id. */
  lemma MergedTurns(file: seq<Line>, native: Thread, order: seq<string>)
    requires DistinctTurns(native.turns) && ValidRefresh(file, native, order, [])
    ensures DistinctTurns(Merge(native, Captured(file), order).turns)
  {
    var turns := Merge(native, Captured(file), order).turns;
    var n := |native.turns|;
    forall i, j | 0 <= i < j < |turns| ensures turns[i].id != turns[j].id {
      if i < n <= j {
        assert turns[i].id in TurnIds(native.turns);
        assert order[j - n] in order;
      }
    }
  }

  lemma ItemsOfNativeTurn(file: seq<Line>, native: Thread, order: seq<string>, k: nat)
    requires DistinctTurns(native.turns) && ValidRefresh(file, native, order, []) && k < |native.turns|
    ensures ItemsOf(Merge(native, Captured(file), order).turns, native.turns[k].id) ==
            MergeTurn(native.turns[k], Captured(file)).items
  {
    var turns := Merge(native, Captured(file), order).turns;
    MergedTurns(file, native, order);
    assert turns[k] == MergeTurn(native.turns[k], Captured(file));
    ItemsOfDistinct(turns, k);
  }

  lemma ItemsOfAppendedTurn(file: seq<Line>, native: Thread, order: seq<string>, j: nat)
    requires DistinctTurns(native.turns) && ValidRefresh(file, native, order, []) && j < |order|
    ensures ItemsOf(Merge(native, Captured(file), order).turns, order[j]) == Captured(file)[order[j]].items
  {
    var turns, n := Merge(native, Captured(file), order).turns, |native.turns|;
    MergedTurns(file, native, order);
    assert turns[n + j] == Captured(file)[order[j]];
    ItemsOfDistinct(turns, n + j);
  }

  lemma NoSuchTurn(file: seq<Line>, native: Thread, order: seq<string>, turnId: string)
    requires ValidRefresh(file, native, order, []) && turnId !in TurnIds(native.turns) && turnId !in Captured(file)
    ensures forall t :: t in Merge(native, Captured(file), order).turns ==> t.id != turnId
  {
    var turns, n := Merge(native, Captured(file), order).turns, |native.turns|;
    forall i | 0 <= i < |turns| ensures turns[i].id != turnId {
      if i < n {
        assert turns[i].id == native.turns[i].id && native.turns[i].id in TurnIds(native.turns);
      } else {
        assert turns[i] == Captured(file)[order[i - n]] && turns[i].id == order[i - n];
      }
    }
  }

  lemma ItemsOfMissingTurn(file: seq<Line>, native: Thread, order: seq<string>, turnId: string)
    requires DistinctTurns(native.turns) && ValidRefresh(file, native, order, []) && turnId !in TurnIds(native.turns)
    ensures ItemsOf(Merge(native, Captured(file), order).turns, turnId) ==
            if turnId in Captured(file) then Captured(file)[turnId].items else []
  {
    if turnId in Captured(file) {
      assert turnId in Captured(file).Keys - TurnIds(native.turns) && turnId in order;
      var j :| 0 <= j < |order| && order[j] == turnId;
      ItemsOfAppendedTurn(file, native, order, j);
    } else {
      NoSuchTurn(file, native, order, turnId);
      ItemsOfAbsent(Merge(native, Captured(file), order).turns, turnId);
    }
  }

  /** One refresh with a native snapshot that lacks a turn's tools leaves those tools exactly as they were. */
  lemma RefreshKeepsTools(file: seq<Line>, native: Thread, order: seq<string>, locals: seq<Line>, turnId: string)
    requires turnId != "" && ValidRefresh(file, native, order, locals) && DropsTools(file, native, turnId)
    ensures Tools(CapturedItems(Refresh(file, native, order, locals), turnId)) == Tools(CapturedItems(file, turnId))
  {
    var merged := Merge(native, Captured(file), order);
    var captured, before := Captured(file), CapturedItems(file, turnId);
    var items := ItemsOf(merged.turns, turnId);
    CapturedAppendForeign(Project(merged), locals, turnId);
    ReadBack(merged, turnId);
    CapturedHasLine(file, turnId);
    if HasTool(before) {
      assert turnId in captured && captured[turnId].items == before;
      if k :| 0 <= k < |native.turns| && native.turns[k].id == turnId {
        ItemsOfNativeTurn(file, native, order, k);
        MergedToolsReadBack(before, native.turns[k].items);
      } else {
        ItemsOfMissingTurn(file, native, order, turnId);
        AddAllOfDistinct(before);
      }
    } else {
      if k :| 0 <= k < |native.turns| && native.turns[k].id == turnId {
        ItemsOfNativeTurn(file, native, order, k);
      } else {
        ItemsOfMissingTurn(file, native, order, turnId);
      }
      assert !HasTool(items);
      forall i | 0 <= i < |before| ensures !IsTool(before[i]) {}
      NoTools(before);
      forall i | 0 <= i < |items| ensures !IsTool(items[i]) {}
      NoTools(items);
      AddAllKeepsTools(items);
    }
  }

  datatype Update = Update(native: Thread, order: seq<string>, locals: seq<Line>)

  /** A series of refreshes, all with snapshots that lack the turn's tools, ends with `end`. */
  ghost predicate Refreshes(file: seq<Line>, updates: seq<Update>, turnId: string, end: seq<Line>)
    decreases |updates|
  {
    if updates == [] then end == file
    else
      var u := updates[0];
      && ValidRefresh(file, u.native, u.order, u.locals) && DropsTools(file, u.native, turnId)
      && Refreshes(Refresh(file, u.native, u.order, u.locals), updates[1..], turnId, end)
  }

  /** Main result: captured tool activity survives any number of refreshes verbatim and in order. */
  lemma {:induction false} ToolActivityIsDurable(file: seq<Line>, updates: seq<Update>, turnId: string, end: seq<Line>)
    requires turnId != "" && Refreshes(file, updates, turnId, end)
    ensures Tools(CapturedItems(end, turnId)) == Tools(CapturedItems(file, turnId))
    decreases |updates|
  {
    if updates != [] {
      var u := updates[0];
      RefreshKeepsTools(file, u.native, u.order, u.locals, turnId);
      ToolActivityIsDurable(Refresh(file, u.native, u.order, u.locals), updates[1..], turnId, end);
    }
  }

  /** A native turn with tools of its own is what is read back of it, whatever was captured. */
  lemma NativeTurnReadBack(file: seq<Line>, native: Thread, order: seq<string>, locals: seq<Line>, k: nat)
    requires DistinctTurns(native.turns) && ValidRefresh(file, native, order, locals)
    requires k < |native.turns| && native.turns[k].id != "" && HasTool(native.turns[k].items)
    ensures CapturedItems(Refresh(file, native, order, locals), native.turns[k].id) == AddAll([], native.turns[k].items)
  {
    var merged := Merge(native, Captured(file), order);
    CapturedAppendForeign(Project(merged), locals, native.turns[k].id);
    ReadBack(merged, native.turns[k].id);
    ItemsOfNativeTurn(file, native, order, k);
  }

  /** ... until the native turn carries tools of its own, which then replace it wholesale. */
  lemma NativeToolsWin(file: seq<Line>, native: Thread, order: seq<string>, locals: seq<Line>, k: nat)
    requires DistinctTurns(native.turns) && ValidRefresh(file, native, order, locals)
    requires k < |native.turns| && native.turns[k].id != "" && HasTool(native.turns[k].items)
    requires DistinctItems(native.turns[k].items) && Identified(native.turns[k].items)
    ensures CapturedItems(Refresh(file, native, order, locals), native.turns[k].id) == native.turns[k].items
  {
    NativeTurnReadBack(file, native, order, locals, k);
    AddAllOfDistinct(native.turns[k].items);
  }

  // ---------------------------------------------------------------- the loops

  /** `entries` is the projection of `plain`, and `parent` what its next entry must point to. */
  ghost predicate Linked(entries: seq<Line>, parent: EntryId, plain: seq<Line>) {
    entries == [Header] + Chained(plain) && parent == if plain == [] then NoId else plain[|plain| - 1].id
  }

  lemma LinkedGrows(entries: seq<Line>, parent: EntryId, plain: seq<Line>, next: Line)
    requires Linked(entries, parent, plain)
    ensures Linked(entries + [next.(parent := parent)], next.id, plain + [next])
  {}

  /** Append the entries of one item, threading each entry's id to the next as its parent. */
  method EmitItem(lines: seq<Line>, before: seq<Line>, last: EntryId, ghost plain: seq<Line>)
    returns (entries: seq<Line>, parent: EntryId)
    requires Linked(before, last, plain)
    ensures Linked(entries, parent, plain + lines)
  {
    entries, parent := before, last;
    assert plain + lines[..0] == plain;
    for e := 0 to |lines|
      invariant Linked(entries, parent, plain + lines[..e])
    {
      LinkedGrows(entries, parent, plain + lines[..e], lines[e]);
      assert plain + lines[..e] + [lines[e]] == plain + lines[..e + 1];
      entries := entries + [lines[e].(parent := parent)];
      parent := lines[e].id;
    }
    assert lines[..|lines|] == lines;
  }

  lemma TurnLinesGrow(threadId: string, turnId: string, items: seq<Item>, i: nat, plain: seq<Line>)
    requires i < |items|
    ensures plain + TurnLines(threadId, turnId, items[..i]) + ItemLines(threadId, turnId, items[i]) ==
            plain + TurnLines(threadId, turnId, items[..i + 1])
  {
    assert items[..i + 1][..i] == items[..i];
  }

  method EmitTurn(threadId: string, turn: Turn, before: seq<Line>, last: EntryId, ghost plain: seq<Line>)
    returns (entries: seq<Line>, parent: EntryId)
    requires Linked(before, last, plain)
    ensures Linked(entries, parent, plain + TurnLines(threadId, turn.id, turn.items))
  {
    entries, parent := before, last;
    assert plain + TurnLines(threadId, turn.id, turn.items[..0]) == plain;
    for i := 0 to |turn.items|
      invariant Linked(entries, parent, plain + TurnLines(threadId, turn.id, turn.items[..i]))
    {
      var projected := ItemLines(threadId, turn.id, turn.items[i]);
      ghost var soFar := TurnLines(threadId, turn.id, turn.items[..i]);
      entries, parent := EmitItem(projected, entries, parent, plain + soFar);
      TurnLinesGrow(threadId, turn.id, turn.items, i, plain);
    }
    assert turn.items[..|turn.items|] == turn.items;
  }

  /** The nested loop over turns and items. */
  method ProjectThread(thread: Thread) returns (entries: seq<Line>)
    ensures entries == Project(thread)
  {
    entries := [Header];
    var parent := NoId;
    for t := 0 to |thread.turns|
      invariant Linked(entries, parent, TurnsLines(thread.id, thread.turns[..t]))
    {
      entries, parent := EmitTurn(thread.id, thread.turns[t], entries, parent,
                                  TurnsLines(thread.id, thread.turns[..t]));
      assert thread.turns[..t + 1][..t] == thread.turns[..t];
    }
    assert thread.turns[..|thread.turns|] == thread.turns;
  }

  /** The scan of one file: items per turn, first line of an item wins. */
  method ScanFile(lines: seq<Line>) returns (turns: map<string, seq<Item>>)
    ensures forall id :: (if id in turns then turns[id] else []) == CapturedItems(lines, id)
  {
    turns := map[];
    for i := 0 to |lines|
      invariant forall id :: (if id in turns then turns[id] else []) == CapturedItems(lines[..i], id)
    {
      var line := lines[i];
      assert lines[..i + 1][..i] == lines[..i];
      if line.turnId == "" || line.itemId == "" || line.itemType == "" {
        continue;
      }
      var items := if line.turnId in turns then turns[line.turnId] else [];
      if KnownId(items, line.itemId) {
        turns := turns[line.turnId := items];
        continue;
      }
      turns := turns[line.turnId := items + [Item(line.itemId, line.itemType, line.raw)]];
    }
    assert lines[..|lines|] == lines;
  }

  function ItemsIn(best: map<string, Turn>, id: string): seq<Item> {
    if id in best then best[id].items else []
  }

  /** Every turn kept so far has a tool and nothing but its id and items. */
  ghost predicate ToolTurns(best: map<string, Turn>) {
    forall id :: id in best ==> best[id] == Turn(id, "", 0, 0, best[id].items) && HasTool(best[id].items)
  }

  method KeepRicher(best: map<string, Turn>, turns: map<string, seq<Item>>) returns (out: map<string, Turn>)
    requires ToolTurns(best)
    ensures ToolTurns(out)
    ensures forall id :: ItemsIn(out, id) == Richer(ItemsIn(best, id), if id in turns then turns[id] else [])
  {
    out := best;
    var left := turns.Keys;
    while left != {}
      invariant left <= turns.Keys && ToolTurns(out)
      invariant forall id :: ItemsIn(out, id) ==
                  if id in turns && id !in left then Richer(ItemsIn(best, id), turns[id]) else ItemsIn(best, id)
    {
      var id :| id in left;
      left := left - {id};
      var items := turns[id];
      if !HasTool(items) {
        continue;
      }
      if id !in out || |items| > |out[id].items| {
        out := out[id := Turn(id, "", 0, 0, items)];
      }
    }
  }

  /** Over the candidate files, keep per turn the richest capture that includes a tool. */
  method ReadCapturedToolTurns(files: seq<seq<Line>>) returns (out: map<string, Turn>)
    ensures ToolTurns(out)
    ensures forall id :: ItemsIn(out, id) == Best(files, id)
  {
    out := map[];
    for f := 0 to |files|
      invariant ToolTurns(out)
      invariant forall id :: ItemsIn(out, id) == Best(files[..f], id)
    {
      var turns := ScanFile(files[f]);
      assert files[..f + 1][..f] == files[..f];
      out := KeepRicher(out, turns);
    }
    assert files[..|files|] == files;
  }

  /** With a single file this is what a refresh uses. */
  lemma BestOfOne(file: seq<Line>, id: string)
    ensures Best([file], id) == if HasTool(CapturedItems(file, id)) then CapturedItems(file, id) else []
    ensures id in Captured(file) <==> Best([file], id) != []
    ensures id in Captured(file) ==> Captured(file)[id].items == Best([file], id)
  {}

  method MergeItemsLoop(preserved: seq<Item>, native: seq<Item>) returns (merged: seq<Item>)
    ensures merged == MergeItems(preserved, native)
  {
    merged := preserved;
    var semantic: map<string, nat> := map[];
    for i := 0 to |merged|
      invariant semantic == Semantic(preserved[..i])
    {
      semantic := semantic[SemanticKey(merged[i]) := i];
      assert preserved[..i + 1][..i] == preserved[..i];
    }
    assert preserved[..|preserved|] == preserved;
    for i := 0 to |native|
      invariant forall key :: key in semantic ==> semantic[key] < |merged|
      invariant MergeInto(merged, semantic, native[i..]) == MergeItems(preserved, native)
    {
      var item := native[i];
      var key := SemanticKey(item);
      assert native[i..][0] == item && native[i..][1..] == native[i + 1..];
      if key in semantic {
        if !IsTool(item) {
          merged := merged[semantic[key] := item];
        }
        continue;
      }
      semantic := semantic[key := |merged|];
      merged := merged + [item];
    }
  }

  method MergeCapturedToolTurns(thread: Thread, captured: map<string, Turn>)
    returns (result: Thread, order: seq<string>)
    ensures Lists(order, captured.Keys - TurnIds(thread.turns))
    ensures forall i :: 0 <= i < |order| ==> order[i] in captured
    ensures result == Merge(thread, captured, order)
  {
    var turns := thread.turns;
    for t := 0 to |turns|
      invariant |turns| == |thread.turns|
      invariant forall i :: 0 <= i < |turns| ==>
                  turns[i] == if i < t then MergeTurn(thread.turns[i], captured) else thread.turns[i]
    {
      var turn := turns[t];
      if turn.id !in captured {
        continue;
      }
      var hasNativeTool := false;
      for i := 0 to |turn.items|
        invariant hasNativeTool <==> HasTool(turn.items[..i])
      {
        HasToolGrows(turn.items, i);
        hasNativeTool := hasNativeTool || IsTool(turn.items[i]);
      }
      assert turn.items[..|turn.items|] == turn.items;
      if hasNativeTool {
        continue;
      }
      var merged := MergeItemsLoop(captured[turn.id].items, turn.items);
      turns := turns[t := turn.(items := merged)];
    }
    order := [];
    var left := captured.Keys;
    ghost var merged := turns;
    while left != {}
      invariant left <= captured.Keys
      invariant Lists(order, captured.Keys - left - TurnIds(thread.turns))
      invariant forall i :: 0 <= i < |order| ==> order[i] in captured
      invariant turns == merged + seq(|order|, i requires 0 <= i < |order| => captured[order[i]])
    {
      var id :| id in left;
      ghost var done := captured.Keys - left - TurnIds(thread.turns);
      left := left - {id};
      if id !in TurnIds(thread.turns) {
        assert captured.Keys - left - TurnIds(thread.turns) == done + {id};
        order := order + [id];
        turns := turns + [captured[id]];
      } else {
        assert captured.Keys - left - TurnIds(thread.turns) == done;
      }
    }
    result := thread.(turns := turns);
  }

  lemma HasToolGrows(items: seq<Item>, i: nat)
    requires i < |items|
    ensures HasTool(items[..i + 1]) <==> HasTool(items[..i]) || IsTool(items[i])
  {}
}
