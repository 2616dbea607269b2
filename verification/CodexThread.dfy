/** The thread that a Codex worker keeps in memory, internal/codex/worker.go: how live notifications,
    completed snapshots and later reads are merged into it. */
module CodexThread {
  import opened Options
  import opened CodexItems

  /** Turn ids are distinct, and so are the item ids of every turn. */
  ghost predicate WellFormed(turns: seq<Turn>) {
    DistinctTurns(turns) && forall i :: 0 <= i < |turns| ==> DistinctItems(turns[i].items)
  }

  function ItemAt(items: seq<Item>, id: string): (k: nat)
    ensures k <= |items| && (k < |items| ==> items[k].id == id)
    ensures forall i :: 0 <= i < k ==> items[i].id != id
  {
    if items == [] || items[0].id == id then 0 else 1 + ItemAt(items[1..], id)
  }

  function TurnAt(turns: seq<Turn>, id: string): (k: nat)
    ensures k <= |turns| && (k < |turns| ==> turns[k].id == id)
    ensures forall i :: 0 <= i < k ==> turns[i].id != id
  {
    if turns == [] || turns[0].id == id then 0 else 1 + TurnAt(turns[1..], id)
  }

  predicate HasItem(items: seq<Item>, id: string) {
    ItemAt(items, id) < |items|
  }

  predicate HasTurn(turns: seq<Turn>, id: string) {
    TurnAt(turns, id) < |turns|
  }

  lemma ItemAtIs(items: seq<Item>, k: nat)
    requires DistinctItems(items) && k < |items|
    ensures ItemAt(items, items[k].id) == k
  {}

  // ---------------------------------------------------------------- single updates

  function PutItem(items: seq<Item>, item: Item): seq<Item> {
    var k := ItemAt(items, item.id);
    if k < |items| then items[k := item] else items + [item]
  }

  function PutTurn(turns: seq<Turn>, turn: Turn): seq<Turn> {
    var k := TurnAt(turns, turn.id);
    if k < |turns| then turns[k := turn] else turns + [turn]
  }

  /** Insert or replace an item; a turn that is not there yet starts with the given status. */
  function PutItemIn(turns: seq<Turn>, turnID: string, item: Item, status: string): seq<Turn> {
    var k := TurnAt(turns, turnID);
    if k < |turns| then turns[k := turns[k].(items := PutItem(turns[k].items, item))]
    else turns + [Turn(turnID, status, 0, 0, [item])]
  }

  /** One delta on an item: text is appended, except that reasoning is stored as a list. */
  function Extended(item: Item, kind: string, field: string, delta: string): Item {
    var text := TextField(item.raw, field) + delta;
    var raw := item.raw[field := if kind == "reasoning" then Listed([text]) else Text(text)];
    item.(raw := if kind == "commandExecution" then raw["status" := Text("inProgress")] else raw)
  }

  function ItemOf(turns: seq<Turn>, turnID: string, itemID: string): Option<Item> {
    var k := TurnAt(turns, turnID);
    if k < |turns| && HasItem(turns[k].items, itemID) then Some(turns[k].items[ItemAt(turns[k].items, itemID)])
      else None
  }

  function PutDelta(turns: seq<Turn>, turnID: string, itemID: string, kind: string, field: string,
                    delta: string): seq<Turn> {
    var known := ItemOf(turns, turnID, itemID);
    var item := if known.Some? then known.value else Item(itemID, kind, map[]);
    PutItemIn(turns, turnID, Extended(item, kind, field, delta), "inProgress")
  }

  lemma PutItemKeepsDistinct(items: seq<Item>, item: Item)
    requires DistinctItems(items)
    ensures DistinctItems(PutItem(items, item))
    ensures HasItem(PutItem(items, item), item.id)
            && PutItem(items, item)[ItemAt(PutItem(items, item), item.id)] == item
  {
    var r, k := PutItem(items, item), ItemAt(items, item.id);
    assert r[k] == item && forall i :: 0 <= i < |r| && i != k ==> r[i] == items[i];
    ItemAtIs(r, k);
  }

  lemma PutTurnKeepsForm(turns: seq<Turn>, turn: Turn)
    requires DistinctTurns(turns)
    ensures DistinctTurns(PutTurn(turns, turn))
    ensures WellFormed(turns) && DistinctItems(turn.items) ==> WellFormed(PutTurn(turns, turn))
    ensures forall i :: 0 <= i < |turns| && turns[i].id != turn.id ==> PutTurn(turns, turn)[i] == turns[i]
  {}

  /** An item update keeps ids distinct, makes the item the one given and leaves every other turn alone. */
  lemma PutItemInKeepsForm(turns: seq<Turn>, turnID: string, item: Item, status: string)
    requires WellFormed(turns)
    ensures WellFormed(PutItemIn(turns, turnID, item, status))
    ensures ItemOf(PutItemIn(turns, turnID, item, status), turnID, item.id) == Some(item)
    ensures forall i :: 0 <= i < |turns| && turns[i].id != turnID ==>
              PutItemIn(turns, turnID, item, status)[i] == turns[i]
  {
    var k, r := TurnAt(turns, turnID), PutItemIn(turns, turnID, item, status);
    if k < |turns| {
      PutItemKeepsDistinct(turns[k].items, item);
    } else {
      assert [item][0] == item && ItemAt([item], item.id) == 0;
    }
    assert r[k].id == turnID && forall i :: 0 <= i < k ==> r[i] == turns[i];
    assert TurnAt(r, turnID) == k;
  }

  lemma {:induction false} PutDeltaKeepsForm(turns: seq<Turn>, turnID: string, itemID: string, kind: string,
                                             field: string, delta: string)
    requires WellFormed(turns)
    ensures WellFormed(PutDelta(turns, turnID, itemID, kind, field, delta))
  {}

  /** A turn that is replaced by one of its id, or appended, keeps turn ids distinct, whatever its items. */
  lemma UpdatesKeepTurns(turns: seq<Turn>, turnID: string, r: seq<Turn>)
    requires DistinctTurns(turns)
    requires var k := TurnAt(turns, turnID);
             if k < |turns| then
               |r| == |turns| && r[k].id == turnID && forall i :: 0 <= i < |r| && i != k ==> r[i] == turns[i]
             else |r| == |turns| + 1 && r[..|turns|] == turns && r[|turns|].id == turnID
    ensures DistinctTurns(r)
  {
    if TurnAt(turns, turnID) == |turns| {
      forall i | 0 <= i < |turns| ensures r[i] == turns[i] { assert r[..|turns|][i] == r[i]; }
    }
  }

  // ---------------------------------------------------------------- streams of deltas

  function Streamed(item: Item, kind: string, field: string, deltas: seq<string>): Item {
    if deltas == [] then item
    else Extended(Streamed(item, kind, field, deltas[..|deltas| - 1]), kind, field, deltas[|deltas| - 1])
  }

  function Concat(deltas: seq<string>): string {
    if deltas == [] then "" else Concat(deltas[..|deltas| - 1]) + deltas[|deltas| - 1]
  }

  /** What a field shows: its text, the lines of a list, or the JSON of another value. */
  function Shown(item: Item, field: string): string {
    if field !in item.raw then ""
    else
      match item.raw[field]
      case Text(s) => s
      case Listed(parts) => Joined(parts, "\n")
      case Blocks(shown, _) => shown
      case Other(json) => if json == "null" then "" else json
  }

  lemma OneDelta(item: Item, kind: string, field: string, delta: string)
    requires field != "status"
    ensures var after, text := Extended(item, kind, field, delta), TextField(item.raw, field) + delta;
            field in after.raw && after.raw[field] == if kind == "reasoning" then Listed([text]) else Text(text)
  {}

  /** What a stream of deltas leaves in the field. */
  lemma {:induction false} StreamLeaves(item: Item, kind: string, field: string, deltas: seq<string>)
    requires deltas != [] && field != "status"
    ensures var after, start := Streamed(item, kind, field, deltas), TextField(item.raw, field);
            && field in after.raw
            && after.raw[field] == (if kind != "reasoning" then Text(start + Concat(deltas))
                                    else Listed([(if |deltas| == 1 then start else "") + deltas[|deltas| - 1]]))
  {
    var earlier, last := deltas[..|deltas| - 1], deltas[|deltas| - 1];
    var start, before := TextField(item.raw, field), Streamed(item, kind, field, earlier);
    OneDelta(before, kind, field, last);
    if earlier != [] {
      StreamLeaves(item, kind, field, earlier);
      assert start + Concat(earlier) + last == start + Concat(deltas);
    }
  }

  /** Deltas are added to what a field shows, for every item, exactly if: outside reasoning, or for a
      single delta, the field shows no more than the string it holds; and for several reasoning deltas,
      of which only the last stays, nothing was shown before it. */
  lemma DeltasAccumulate(item: Item, kind: string, field: string, deltas: seq<string>)
    requires deltas != [] && field != "status"
    ensures Shown(Streamed(item, kind, field, deltas), field) == Shown(item, field) + Concat(deltas)
            <==> if kind != "reasoning" || |deltas| == 1 then Shown(item, field) == TextField(item.raw, field)
                 else Shown(item, field) + Concat(deltas[..|deltas| - 1]) == ""
  {
    var earlier, last := deltas[..|deltas| - 1], deltas[|deltas| - 1];
    var shown, start := Shown(item, field), TextField(item.raw, field);
    StreamLeaves(item, kind, field, deltas);
    if kind != "reasoning" {
      SameFront(start, shown, Concat(deltas));
    } else if |deltas| == 1 {
      SameFront(start, shown, last);
      assert Concat(deltas) == "" + last;
    } else {
      SameFront("", shown + Concat(earlier), last);
      assert shown + Concat(deltas) == shown + Concat(earlier) + last;
    }
  }

  lemma SameFront(a: string, b: string, rest: string)
    ensures a + rest == b + rest <==> a == b
  {
    if a + rest == b + rest { assert (a + rest)[..|a|] == a && (b + rest)[..|b|] == b; }
  }

  /** Three inputs: of two reasoning deltas the second is left, of a list that reasoning held already
      nothing is, and a plan keeps both deltas. */
  lemma ReasoningIsOverwritten(bare: Item, known: Item)
    requires bare.raw == map[] && known.raw == map["content" := Listed(["a"])]
    ensures Shown(Streamed(bare, "reasoning", "content", ["a", "b"]), "content") == "b"
    ensures Shown(known, "content") == "a" && Shown(Streamed(known, "reasoning", "content", ["b"]), "content") == "b"
    ensures Shown(Streamed(bare, "plan", "text", ["a", "b"]), "text") == "ab"
  {
    StreamLeaves(bare, "reasoning", "content", ["a", "b"]);
    StreamLeaves(known, "reasoning", "content", ["b"]);
    StreamLeaves(bare, "plan", "text", ["a", "b"]);
    var first := ["a", "b"][..1];
    assert first == ["a"] && first[..0] == [];
    assert Concat(["a", "b"]) == Concat(first) + "b" && Concat(first) == "" + "a";
  }

  // ---------------------------------------------------------------- merging snapshots

  /** The items of `preferred` where it has them, in the order of `fallback`. */
  function Overlaid(preferred: seq<Item>, fallback: seq<Item>): (r: seq<Item>)
    ensures |r| == |fallback|
  {
    seq(|fallback|, i requires 0 <= i < |fallback| =>
      if HasItem(preferred, fallback[i].id) then preferred[ItemAt(preferred, fallback[i].id)] else fallback[i])
  }

  /** The items of the first that the second does not have. */
  function Unseen(preferred: seq<Item>, fallback: seq<Item>): seq<Item> {
    if preferred == [] then []
    else
      var last := preferred[|preferred| - 1];
      Unseen(preferred[..|preferred| - 1], fallback) + if HasItem(fallback, last.id) then [] else [last]
  }

  function MergedItems(preferred: seq<Item>, fallback: seq<Item>): seq<Item> {
    Overlaid(preferred, fallback) + Unseen(preferred, fallback)
  }

  lemma {:induction false} UnseenAre(preferred: seq<Item>, fallback: seq<Item>)
    requires DistinctItems(preferred)
    ensures DistinctItems(Unseen(preferred, fallback))
    ensures forall item :: item in Unseen(preferred, fallback) <==> item in preferred && !HasItem(fallback, item.id)
  {
    if preferred != [] {
      var n := |preferred| - 1;
      UnseenAre(preferred[..n], fallback);
      assert preferred == preferred[..n] + [preferred[n]];
      var earlier := Unseen(preferred[..n], fallback);
      forall i | 0 <= i < |earlier| ensures earlier[i].id != preferred[n].id {
        assert earlier[i] in earlier;
        var j :| 0 <= j < n && preferred[..n][j] == earlier[i];
      }
    }
  }

  lemma HasItemIs(items: seq<Item>, id: string)
    ensures HasItem(items, id) <==> exists i :: 0 <= i < |items| && items[i].id == id
  {}

  /** The ids of a merge are distinct. */
  lemma MergeKeepsDistinct(preferred: seq<Item>, fallback: seq<Item>)
    requires DistinctItems(preferred) && DistinctItems(fallback)
    ensures DistinctItems(MergedItems(preferred, fallback))
  {
    var a, b := Overlaid(preferred, fallback), Unseen(preferred, fallback);
    UnseenAre(preferred, fallback);
    forall i | 0 <= i < |a| ensures a[i].id == fallback[i].id {}
    forall i, j | 0 <= i < |a| && 0 <= j < |b| ensures a[i].id != b[j].id {
      assert b[j] in b;
      HasItemIs(fallback, b[j].id);
    }
  }

  /** A merge has every item of the preferred snapshot as it is there, every live item that the
      snapshot lacks as it was, and nothing else; the live order comes first. */
  lemma MergeIs(preferred: seq<Item>, fallback: seq<Item>, item: Item)
    requires DistinctItems(preferred) && DistinctItems(fallback)
    ensures item in MergedItems(preferred, fallback) <==>
              item in preferred || (item in fallback && !HasItem(preferred, item.id))
    ensures forall i :: 0 <= i < |fallback| ==> MergedItems(preferred, fallback)[i].id == fallback[i].id
  {
    var a := Overlaid(preferred, fallback);
    UnseenAre(preferred, fallback);
    if item in preferred && HasItem(fallback, item.id) {
      var k := ItemAt(fallback, item.id);
      var i :| 0 <= i < |preferred| && preferred[i] == item;
      ItemAtIs(preferred, i);
      assert a[k] == item;
    }
    if item in fallback && !HasItem(preferred, item.id) {
      var k :| 0 <= k < |fallback| && fallback[k] == item;
      assert a[k] == item;
    }
  }

  /** Merging the same snapshot again changes nothing. */
  lemma MergeIsIdempotent(preferred: seq<Item>, fallback: seq<Item>)
    requires DistinctItems(preferred) && DistinctItems(fallback)
    ensures MergedItems(preferred, MergedItems(preferred, fallback)) == MergedItems(preferred, fallback)
  {
    var merged := MergedItems(preferred, fallback);
    forall i | 0 <= i < |merged| ensures Overlaid(preferred, merged)[i] == merged[i] {
      MergeIs(preferred, fallback, merged[i]);
      if merged[i] in preferred { PreferredIsOwn(preferred, merged[i]); }
    }
    forall item | item in preferred ensures HasItem(merged, item.id) {
      MergeIs(preferred, fallback, item);
      HasItemIs(merged, item.id);
    }
    NothingUnseen(preferred, merged);
  }

  lemma PreferredIsOwn(preferred: seq<Item>, item: Item)
    requires DistinctItems(preferred) && item in preferred
    ensures HasItem(preferred, item.id) && preferred[ItemAt(preferred, item.id)] == item
  {}

  lemma {:induction false} NothingUnseen(preferred: seq<Item>, fallback: seq<Item>)
    requires forall item :: item in preferred ==> HasItem(fallback, item.id)
    ensures Unseen(preferred, fallback) == []
  {
    if preferred != [] { NothingUnseen(preferred[..|preferred| - 1], fallback); }
  }

  ghost predicate Indexes(m: map<string, Item>, items: seq<Item>) {
    && (forall id :: id in m <==> HasItem(items, id))
    && (forall id :: id in m ==> m[id] == items[ItemAt(items, id)])
  }

  method ItemsByID(items: seq<Item>) returns (byID: map<string, Item>)
    requires DistinctItems(items)
    ensures Indexes(byID, items)
  {
    byID := map[];
    for i := 0 to |items|
      invariant forall id :: id in byID <==> exists k :: 0 <= k < i && items[k].id == id
      invariant forall k :: 0 <= k < i ==> byID[items[k].id] == items[k]
    {
      byID := byID[items[i].id := items[i]];
    }
    forall id ensures id in byID <==> HasItem(items, id) { HasItemIs(items, id); }
  }

  method MergeItemSnapshots(preferred: seq<Item>, fallback: seq<Item>) returns (merged: seq<Item>)
    requires DistinctItems(preferred)
    ensures merged == MergedItems(preferred, fallback)
  {
    var preferredByID := ItemsByID(preferred);
    var seen;
    merged, seen := Overlay(preferredByID, fallback, preferred);
    forall id ensures id in seen <==> HasItem(fallback, id) { HasItemIs(fallback, id); }
    var rest := NotIn(preferred, seen, fallback);
    merged := merged + rest;
  }

  method Overlay(preferredByID: map<string, Item>, fallback: seq<Item>, ghost preferred: seq<Item>)
    returns (merged: seq<Item>, seen: set<string>)
    requires Indexes(preferredByID, preferred)
    ensures merged == Overlaid(preferred, fallback)
    ensures forall id :: id in seen <==> exists k :: 0 <= k < |fallback| && fallback[k].id == id
  {
    merged, seen := [], {};
    for i := 0 to |fallback|
      invariant merged == Overlaid(preferred, fallback)[..i]
      invariant forall id :: id in seen <==> exists k :: 0 <= k < i && fallback[k].id == id
    {
      var item := fallback[i];
      if item.id in preferredByID {
        item := preferredByID[item.id];
      }
      merged := merged + [item];
      seen := seen + {item.id};
    }
  }

  method NotIn(preferred: seq<Item>, seen: set<string>, ghost fallback: seq<Item>) returns (rest: seq<Item>)
    requires forall id :: id in seen <==> HasItem(fallback, id)
    ensures rest == Unseen(preferred, fallback)
  {
    rest := [];
    for i := 0 to |preferred|
      invariant rest == Unseen(preferred[..i], fallback)
    {
      assert preferred[..i + 1][..i] == preferred[..i];
      if preferred[i].id in seen {
        continue;
      }
      rest := rest + [preferred[i]];
    }
    assert preferred[..|preferred|] == preferred;
  }

  function Combined(turn: Turn, completed: Turn): Turn {
    Turn(turn.id,
         if completed.status != "" then completed.status else turn.status,
         if completed.started != 0 then completed.started else turn.started,
         if completed.completed != 0 then completed.completed else turn.completed,
         MergedItems(completed.items, turn.items))
  }

  function MergeCompleted(turns: seq<Turn>, completed: Turn): seq<Turn> {
    var k := TurnAt(turns, completed.id);
    if k < |turns| then turns[k := Combined(turns[k], completed)] else turns + [completed]
  }

  lemma MergeCompletedKeepsForm(turns: seq<Turn>, completed: Turn)
    requires WellFormed(turns) && DistinctItems(completed.items)
    ensures WellFormed(MergeCompleted(turns, completed))
    ensures HasTurn(MergeCompleted(turns, completed), completed.id)
    ensures forall i :: 0 <= i < |turns| && turns[i].id != completed.id ==>
              MergeCompleted(turns, completed)[i] == turns[i]
  {
    var k, r := TurnAt(turns, completed.id), MergeCompleted(turns, completed);
    if k < |turns| { MergeKeepsDistinct(completed.items, turns[k].items); }
    assert r[k].id == completed.id;
  }

  /** Completing a turn twice with the same snapshot is completing it once. */
  lemma CompletingTwice(turns: seq<Turn>, completed: Turn)
    requires WellFormed(turns) && DistinctItems(completed.items)
    ensures MergeCompleted(MergeCompleted(turns, completed), completed) == MergeCompleted(turns, completed)
  {
    var k, r := TurnAt(turns, completed.id), MergeCompleted(turns, completed);
    assert r[k].id == completed.id && forall i :: 0 <= i < k ==> r[i] == turns[i];
    assert TurnAt(r, completed.id) == k;
    if k < |turns| {
      MergeIsIdempotent(completed.items, turns[k].items);
    } else {
      MergeWithItself(completed.items);
    }
    assert Combined(r[k], completed) == r[k];
  }

  lemma MergeWithItself(items: seq<Item>)
    requires DistinctItems(items)
    ensures MergedItems(items, items) == items
  {
    forall i | 0 <= i < |items| ensures Overlaid(items, items)[i] == items[i] { ItemAtIs(items, i); }
    forall item | item in items ensures HasItem(items, item.id) { HasItemIs(items, item.id); }
    NothingUnseen(items, items);
  }

  // ---------------------------------------------------------------- a read after completion

  /** The remote turns, with the protected ones replaced by what the worker has. */
  function Replaced(remote: seq<Turn>, local: seq<Turn>, protected: set<string>): (r: seq<Turn>)
    ensures |r| == |remote|
  {
    seq(|remote|, i requires 0 <= i < |remote| =>
      if remote[i].id in protected && HasTurn(local, remote[i].id) then local[TurnAt(local, remote[i].id)]
        else remote[i])
  }

  /** Protected turns, taken in `order`, that the read does not expose yet. */
  function Missing(remote: seq<Turn>, local: seq<Turn>, order: seq<string>): seq<Turn> {
    if order == [] then []
    else
      var id := order[|order| - 1];
      Missing(remote, local, order[..|order| - 1])
        + if !HasTurn(remote, id) && HasTurn(local, id) then [local[TurnAt(local, id)]] else []
  }

  function Preserved(remote: seq<Turn>, local: seq<Turn>, order: seq<string>): seq<Turn> {
    Replaced(remote, local, Protected(order)) + Missing(remote, local, order)
  }

  function Protected(order: seq<string>): set<string> {
    set i | 0 <= i < |order| :: order[i]
  }

  ghost predicate DistinctIds(order: seq<string>) {
    forall i, j :: 0 <= i < j < |order| ==> order[i] != order[j]
  }

  lemma {:induction false} MissingAre(remote: seq<Turn>, local: seq<Turn>, order: seq<string>)
    requires DistinctIds(order)
    ensures DistinctTurns(Missing(remote, local, order))
    ensures forall t :: t in Missing(remote, local, order) <==>
              t.id in order && !HasTurn(remote, t.id) && HasTurn(local, t.id) && t == local[TurnAt(local, t.id)]
  {
    if order != [] {
      var n := |order| - 1;
      MissingAre(remote, local, order[..n]);
      assert order == order[..n] + [order[n]];
      var earlier := Missing(remote, local, order[..n]);
      forall i | 0 <= i < |earlier| ensures earlier[i].id != order[n] {
        assert earlier[i] in earlier;
        var j :| 0 <= j < n && order[..n][j] == earlier[i].id;
      }
    }
  }

  lemma HasTurnIs(turns: seq<Turn>, id: string)
    ensures HasTurn(turns, id) <==> exists i :: 0 <= i < |turns| && turns[i].id == id
  {}

  /** A read after completion keeps ids distinct; it takes every remote turn in its place, except that
      a protected turn the worker knows stays exactly as the worker has it, even if the read lacks it. */
  lemma PreservedIs(remote: seq<Turn>, local: seq<Turn>, order: seq<string>)
    requires DistinctTurns(remote) && DistinctIds(order)
    ensures DistinctTurns(Preserved(remote, local, order))
    ensures forall i :: 0 <= i < |remote| ==> Preserved(remote, local, order)[i].id == remote[i].id
    ensures forall i :: 0 <= i < |remote| && !(remote[i].id in order && HasTurn(local, remote[i].id)) ==>
              Preserved(remote, local, order)[i] == remote[i]
    ensures forall id :: id in order && HasTurn(local, id) ==>
              local[TurnAt(local, id)] in Preserved(remote, local, order)
  {
    var a, b := Replaced(remote, local, Protected(order)), Missing(remote, local, order);
    var r := Preserved(remote, local, order);
    MissingAre(remote, local, order);
    forall i | 0 <= i < |a| ensures a[i].id == remote[i].id {}
    forall i, j | 0 <= i < |a| && 0 <= j < |b| ensures a[i].id != b[j].id {
      assert b[j] in b;
      HasTurnIs(remote, b[j].id);
    }
    forall id | id in order && HasTurn(local, id) ensures local[TurnAt(local, id)] in r {
      if HasTurn(remote, id) {
        var k := TurnAt(remote, id);
        var j :| 0 <= j < |order| && order[j] == id;
        assert id in Protected(order);
        assert r[k] == local[TurnAt(local, id)];
      } else {
        assert local[TurnAt(local, id)] in b;
      }
    }
  }

  lemma PreservedKeepsForm(remote: seq<Turn>, local: seq<Turn>, order: seq<string>)
    requires WellFormed(remote) && WellFormed(local) && DistinctIds(order)
    ensures WellFormed(Preserved(remote, local, order))
  {
    PreservedIs(remote, local, order);
    MissingAre(remote, local, order);
    var r := Preserved(remote, local, order);
    forall i | 0 <= i < |r| ensures DistinctItems(r[i].items) {
      if i >= |remote| { assert r[i] in Missing(remote, local, order); }
    }
  }

  /** preserveLocalTurns; the protected ids are distinct and come in the order in which the program
      happens to visit them. */
  method PreserveLocalTurns(remote: seq<Turn>, local: seq<Turn>, order: seq<string>) returns (turns: seq<Turn>)
    requires DistinctTurns(local)
    ensures turns == Preserved(remote, local, order)
  {
    var localTurns: map<string, Turn> := map[];
    for i := 0 to |local|
      invariant forall id :: id in localTurns <==> exists k :: 0 <= k < i && local[k].id == id
      invariant forall k :: 0 <= k < i ==> localTurns[local[k].id] == local[k]
    {
      localTurns := localTurns[local[i].id := local[i]];
    }
    turns := remote;
    var seen: set<string> := {};
    for index := 0 to |remote|
      invariant |turns| == |remote| && turns[index..] == remote[index..]
      invariant turns[..index] == Replaced(remote, local, Protected(order))[..index]
      invariant forall id :: id in seen <==> exists k :: 0 <= k < index && remote[k].id == id
    {
      var turn := turns[index];
      assert turn == turns[index..][0] == remote[index];
      seen := seen + {turn.id};
      HasTurnIs(local, turn.id);
      if turn.id in order && turn.id in localTurns {
        turns := turns[index := localTurns[turn.id]];
      }
      assert turns[index] == Replaced(remote, local, Protected(order))[index];
    }
    assert turns == Replaced(remote, local, Protected(order)) by {
      assert turns[..|remote|] == turns;
    }
    for i := 0 to |order|
      invariant turns == Replaced(remote, local, Protected(order)) + Missing(remote, local, order[..i])
    {
      assert order[..i + 1][..i] == order[..i];
      HasTurnIs(remote, order[i]);
      HasTurnIs(local, order[i]);
      if order[i] in seen {
        continue;
      }
      if order[i] in localTurns {
        turns := turns + [localTurns[order[i]]];
      }
    }
    assert order[..|order|] == order;
  }

  function PutAll(turns: seq<Turn>, more: seq<Turn>): seq<Turn> {
    if more == [] then turns else PutTurn(PutAll(turns, more[..|more| - 1]), more[|more| - 1])
  }

  lemma {:induction false} PutAllKeepsForm(turns: seq<Turn>, more: seq<Turn>)
    requires DistinctTurns(turns)
    ensures DistinctTurns(PutAll(turns, more))
    ensures WellFormed(turns) && WellFormed(more) ==> WellFormed(PutAll(turns, more))
  {
    if more != [] {
      PutAllKeepsForm(turns, more[..|more| - 1]);
      assert WellFormed(more) ==> WellFormed(more[..|more| - 1]);
      PutTurnKeepsForm(PutAll(turns, more[..|more| - 1]), more[|more| - 1]);
    }
  }
}
