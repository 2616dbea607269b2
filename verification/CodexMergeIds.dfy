/** What mergeCapturedToolTurns of internal/codex/projection.go does to the items of one turn: where
    each item ends up, when their ids stay distinct, and that merging again changes nothing. */
module CodexMergeIds {
  import opened Options
  import opened CodexItems
  import opened CodexToolActivity

  /** Where the last item with a semantic key stands; past the end if there is none. */
  function LastIndex(items: seq<Item>, key: string): (k: nat)
    ensures k <= |items| && (k < |items| ==> SemanticKey(items[k]) == key)
    ensures forall m :: 0 <= m < |items| && (k < m || k == |items|) ==> SemanticKey(items[m]) != key
  {
    if items == [] then 0
    else
      var n := |items| - 1;
      if SemanticKey(items[n]) == key then n
      else
        var k := LastIndex(items[..n], key);
        assert forall m :: 0 <= m < n ==> items[..n][m] == items[m];
        if k < n then k else n + 1
  }

  function LastWith(items: seq<Item>, key: string): Option<Item> {
    var k := LastIndex(items, key);
    if k < |items| then Some(items[k]) else None
  }

  lemma LastWithMore(items: seq<Item>, item: Item, key: string)
    ensures LastWith(items + [item], key) == if SemanticKey(item) == key then Some(item) else LastWith(items, key)
  {
    assert (items + [item])[..|items|] == items;
  }

  /** The place of a captured item's key, which is that of the last captured item with this key. */
  lemma {:induction false} PlaceOf(preserved: seq<Item>, i: nat)
    requires i < |preserved|
    ensures SemanticKey(preserved[i]) in Semantic(preserved)
    ensures i <= Semantic(preserved)[SemanticKey(preserved[i])]
  {
    var n := |preserved| - 1;
    if i < n { PlaceOf(preserved[..n], i); }
  }

  predicate IsPlace(preserved: seq<Item>, i: nat)
    requires i < |preserved|
  {
    var key := SemanticKey(preserved[i]);
    key in Semantic(preserved) && Semantic(preserved)[key] == i
  }

  // ---------------------------------------------------------------- where the items end up

  ghost predicate KeysSound(preserved: seq<Item>, done: seq<Item>, size: nat, semantic: map<string, nat>) {
    && |preserved| <= size
    && (forall key :: key in semantic <==> key in Semantic(preserved) || LastWith(done, key).Some?)
    && (forall key :: key in Semantic(preserved) ==> semantic[key] == Semantic(preserved)[key])
    && (forall key :: key in semantic ==>
          semantic[key] < size && (key !in Semantic(preserved) ==> |preserved| <= semantic[key]))
  }

  /** A merge that has taken in `done`: the place of a key holds the last native item that has it, a
      captured item stays where no native item has its place, and whatever was appended is in its place. */
  ghost predicate PlacesSound(preserved: seq<Item>, done: seq<Item>, merged: seq<Item>, semantic: map<string, nat>)
    requires KeysSound(preserved, done, |merged|, semantic)
  {
    && (forall key :: LastWith(done, key).Some? ==> merged[semantic[key]] == LastWith(done, key).value)
    && (forall i ::
          0 <= i < |preserved| && !(IsPlace(preserved, i) && LastWith(done, SemanticKey(preserved[i])).Some?) ==>
          merged[i] == preserved[i])
    && (forall i :: |preserved| <= i < |merged| ==> InPlace(done, merged[i], semantic, i))
  }

  ghost predicate InPlace(done: seq<Item>, item: Item, semantic: map<string, nat>, i: nat) {
    var key := SemanticKey(item);
    key in semantic && semantic[key] == i && LastWith(done, key).Some?
  }

  ghost predicate Sound(preserved: seq<Item>, done: seq<Item>, merged: seq<Item>, semantic: map<string, nat>) {
    KeysSound(preserved, done, |merged|, semantic) && PlacesSound(preserved, done, merged, semantic)
  }

  lemma StartsSound(preserved: seq<Item>)
    ensures Sound(preserved, [], preserved, Semantic(preserved))
  {}

  lemma LastsWithMore(items: seq<Item>, item: Item)
    ensures forall key :: LastWith(items + [item], key) ==
                          if SemanticKey(item) == key then Some(item) else LastWith(items, key)
  {
    forall key
      ensures LastWith(items + [item], key) == if SemanticKey(item) == key then Some(item) else LastWith(items, key)
    {
      LastWithMore(items, item, key);
    }
  }

  lemma OverwriteKeysSound(preserved: seq<Item>, done: seq<Item>, size: nat, semantic: map<string, nat>, item: Item)
    requires KeysSound(preserved, done, size, semantic) && SemanticKey(item) in semantic
    ensures KeysSound(preserved, done + [item], size, semantic)
  {
    LastsWithMore(done, item);
  }

  lemma OverwrittenAt(preserved: seq<Item>, done: seq<Item>, merged: seq<Item>, semantic: map<string, nat>, item: Item,
                      i: nat)
    requires Sound(preserved, done, merged, semantic) && SemanticKey(item) in semantic && i < |preserved|
    requires !(IsPlace(preserved, i) && LastWith(done + [item], SemanticKey(preserved[i])).Some?)
    ensures merged[semantic[SemanticKey(item)] := item][i] == preserved[i]
  {
    LastWithMore(done, item, SemanticKey(preserved[i]));
    SemanticHasKey(preserved, SemanticKey(item));
  }

  lemma OverwriteSound(preserved: seq<Item>, done: seq<Item>, merged: seq<Item>, semantic: map<string, nat>, item: Item)
    requires Sound(preserved, done, merged, semantic) && SemanticKey(item) in semantic
    ensures Sound(preserved, done + [item], merged[semantic[SemanticKey(item)] := item], semantic)
  {
    var key, now := SemanticKey(item), done + [item];
    var merged' := merged[semantic[key] := item];
    OverwriteKeysSound(preserved, done, |merged|, semantic, item);
    forall k | LastWith(now, k).Some? ensures merged'[semantic[k]] == LastWith(now, k).value {
      LastWithMore(done, item, k);
      if semantic[k] == semantic[key] { SamePlace(preserved, done, merged, semantic, k, key); }
    }
    forall i | 0 <= i < |preserved| && !(IsPlace(preserved, i) && LastWith(now, SemanticKey(preserved[i])).Some?)
      ensures merged'[i] == preserved[i]
    {
      OverwrittenAt(preserved, done, merged, semantic, item, i);
    }
    forall i | |preserved| <= i < |merged| ensures InPlace(now, merged'[i], semantic, i) {
      assert InPlace(done, merged[i], semantic, i);
      LastWithMore(done, item, SemanticKey(merged'[i]));
    }
  }

  /** Different keys have different places. */
  lemma SamePlace(preserved: seq<Item>, done: seq<Item>, merged: seq<Item>, semantic: map<string, nat>, a: string,
                  b: string)
    requires Sound(preserved, done, merged, semantic) && a in semantic && b in semantic && semantic[a] == semantic[b]
    ensures a == b
  {
    SemanticHasKey(preserved, a);
    SemanticHasKey(preserved, b);
    if a !in Semantic(preserved) && b !in Semantic(preserved) {
      assert merged[semantic[a]] == LastWith(done, a).value && merged[semantic[b]] == LastWith(done, b).value;
    }
  }

  lemma AppendKeysSound(preserved: seq<Item>, done: seq<Item>, size: nat, semantic: map<string, nat>, item: Item)
    requires KeysSound(preserved, done, size, semantic) && SemanticKey(item) !in semantic
    ensures KeysSound(preserved, done + [item], size + 1, semantic[SemanticKey(item) := size])
  {
    var grown := semantic[SemanticKey(item) := size];
    forall key
      ensures key in grown <==> key in Semantic(preserved) || LastWith(done + [item], key).Some?
    {
      LastWithMore(done, item, key);
    }
  }

  lemma AppendSound(preserved: seq<Item>, done: seq<Item>, merged: seq<Item>, semantic: map<string, nat>, item: Item)
    requires Sound(preserved, done, merged, semantic) && SemanticKey(item) !in semantic
    ensures Sound(preserved, done + [item], merged + [item], semantic[SemanticKey(item) := |merged|])
  {
    var key, now := SemanticKey(item), done + [item];
    var merged', semantic' := merged + [item], semantic[key := |merged|];
    AppendKeysSound(preserved, done, |merged|, semantic, item);
    LastsWithMore(done, item);
    forall k | LastWith(now, k).Some? ensures merged'[semantic'[k]] == LastWith(now, k).value {
      if k != key { assert merged'[semantic[k]] == merged[semantic[k]]; }
    }
    forall i | 0 <= i < |preserved| && !(IsPlace(preserved, i) && LastWith(now, SemanticKey(preserved[i])).Some?)
      ensures merged'[i] == preserved[i]
    {
      PlaceOf(preserved, i);
    }
    forall i | |preserved| <= i < |merged'| ensures InPlace(now, merged'[i], semantic', i) {
      if i < |merged| { assert InPlace(done, merged[i], semantic, i); }
    }
  }

  lemma {:induction false} MergesSound(preserved: seq<Item>, done: seq<Item>, merged: seq<Item>,
                                       semantic: map<string, nat>, rest: seq<Item>)
    returns (end: map<string, nat>)
    requires Sound(preserved, done, merged, semantic) && !HasTool(rest)
    requires forall key :: key in semantic ==> semantic[key] < |merged|
    ensures Sound(preserved, done + rest, MergeInto(merged, semantic, rest), end)
    decreases |rest|
  {
    if rest == [] {
      assert done + rest == done;
      return semantic;
    }
    var item, key, now := rest[0], SemanticKey(rest[0]), done + [rest[0]];
    assert !IsTool(item);
    forall i | 0 <= i < |rest[1..]| ensures !IsTool(rest[1..][i]) { assert rest[1..][i] == rest[i + 1]; }
    assert done + rest == now + rest[1..];
    if key in semantic {
      OverwriteSound(preserved, done, merged, semantic, item);
      end := MergesSound(preserved, now, merged[semantic[key] := item], semantic, rest[1..]);
    } else {
      AppendSound(preserved, done, merged, semantic, item);
      end := MergesSound(preserved, now, merged + [item], semantic[key := |merged|], rest[1..]);
    }
  }

  lemma MergeIsSound(preserved: seq<Item>, native: seq<Item>) returns (end: map<string, nat>)
    requires !HasTool(native)
    ensures Sound(preserved, native, MergeItems(preserved, native), end)
  {
    StartsSound(preserved);
    end := MergesSound(preserved, [], preserved, Semantic(preserved), native);
    assert [] + native == native;
  }

  // ---------------------------------------------------------------- when ids stay distinct

  /** A captured item that no native item replaces. */
  predicate Retained(preserved: seq<Item>, native: seq<Item>, i: nat)
    requires i < |preserved|
  {
    !IsPlace(preserved, i) || LastWith(native, SemanticKey(preserved[i])).None?
  }

  /** A native item that no later one replaces. */
  predicate Survives(native: seq<Item>, k: nat)
    requires k < |native|
  {
    forall m :: k < m < |native| ==> SemanticKey(native[m]) != SemanticKey(native[k])
  }

  /** No native item that survives has the id of a captured item that is retained. */
  ghost predicate IdsFit(preserved: seq<Item>, native: seq<Item>) {
    forall i, k ::
      0 <= i < |preserved| && 0 <= k < |native| && Retained(preserved, native, i) && Survives(native, k) ==>
      preserved[i].id != native[k].id
  }

  lemma LastOfSurvivor(native: seq<Item>, k: nat)
    requires k < |native| && Survives(native, k)
    ensures LastWith(native, SemanticKey(native[k])) == Some(native[k])
  {
    assert LastIndex(native, SemanticKey(native[k])) == k;
  }

  /** What stands at each place of a merge. */
  lemma MergedAt(preserved: seq<Item>, native: seq<Item>, end: map<string, nat>, i: nat)
    requires Sound(preserved, native, MergeItems(preserved, native), end) && i < |MergeItems(preserved, native)|
    ensures var item := MergeItems(preserved, native)[i];
            if i < |preserved| && Retained(preserved, native, i) then item == preserved[i]
            else
              && SemanticKey(item) in end && end[SemanticKey(item)] == i
              && LastWith(native, SemanticKey(item)) == Some(item)
  {
    var merged := MergeItems(preserved, native);
    if i < |preserved| {
      if !Retained(preserved, native, i) {
        var key := SemanticKey(preserved[i]);
        assert merged[end[key]] == LastWith(native, key).value;
      }
    } else {
      assert InPlace(native, merged[i], end, i);
    }
  }

  /** The ids of a merged turn are distinct if and only if no surviving native item has the id of a
      retained captured item. */
  lemma MergedIdsAreDistinct(preserved: seq<Item>, native: seq<Item>)
    requires DistinctItems(preserved) && DistinctItems(native) && !HasTool(native)
    ensures DistinctItems(MergeItems(preserved, native)) <==> IdsFit(preserved, native)
  {
    var end := MergeIsSound(preserved, native);
    if IdsFit(preserved, native) {
      FittingIdsStayDistinct(preserved, native, end);
    } else {
      var i, k :| 0 <= i < |preserved| && 0 <= k < |native| && Retained(preserved, native, i) && Survives(native, k)
                  && preserved[i].id == native[k].id;
      ClashingIdsMeet(preserved, native, end, i, k);
    }
  }

  /** What stands at a place of a merge is a retained captured item or a surviving native one. */
  lemma ComesFrom(preserved: seq<Item>, native: seq<Item>, end: map<string, nat>, i: nat)
    returns (retained: bool, k: nat)
    requires Sound(preserved, native, MergeItems(preserved, native), end) && i < |MergeItems(preserved, native)|
    ensures retained ==>
              i < |preserved| && Retained(preserved, native, i) && MergeItems(preserved, native)[i] == preserved[i]
    ensures !retained ==>
              && k < |native| && Survives(native, k) && MergeItems(preserved, native)[i] == native[k]
              && SemanticKey(native[k]) in end && end[SemanticKey(native[k])] == i
  {
    MergedAt(preserved, native, end, i);
    retained := i < |preserved| && Retained(preserved, native, i);
    k := LastIndex(native, SemanticKey(MergeItems(preserved, native)[i]));
  }

  lemma FittingIdsStayDistinct(preserved: seq<Item>, native: seq<Item>, end: map<string, nat>)
    requires DistinctItems(preserved) && DistinctItems(native) && IdsFit(preserved, native)
    requires Sound(preserved, native, MergeItems(preserved, native), end)
    ensures DistinctItems(MergeItems(preserved, native))
  {
    var merged := MergeItems(preserved, native);
    forall i, j | 0 <= i < j < |merged| ensures merged[i].id != merged[j].id {
      var a, k := ComesFrom(preserved, native, end, i);
      var b, m := ComesFrom(preserved, native, end, j);
    }
  }

  lemma ClashingIdsMeet(preserved: seq<Item>, native: seq<Item>, end: map<string, nat>, i: nat, k: nat)
    requires Sound(preserved, native, MergeItems(preserved, native), end)
    requires i < |preserved| && k < |native| && Retained(preserved, native, i) && Survives(native, k)
    requires preserved[i].id == native[k].id
    ensures !DistinctItems(MergeItems(preserved, native))
  {
    var merged, key := MergeItems(preserved, native), SemanticKey(native[k]);
    LastOfSurvivor(native, k);
    MergedAt(preserved, native, end, i);
    var place := end[key];
    assert merged[place] == native[k];
    SemanticHasKey(preserved, key);
    assert place != i;
  }

  predicate DistinctKeys(items: seq<Item>) {
    forall i, j :: 0 <= i < j < |items| ==> SemanticKey(items[i]) != SemanticKey(items[j])
  }

  /** It is enough that no native item shares its id with a captured item under another semantic key,
      provided that no two captured items have the same key. */
  lemma SameKeysAreEnough(preserved: seq<Item>, native: seq<Item>)
    requires DistinctKeys(preserved)
    requires forall i, k :: 0 <= i < |preserved| && 0 <= k < |native| && preserved[i].id == native[k].id ==>
               SemanticKey(preserved[i]) == SemanticKey(native[k])
    ensures IdsFit(preserved, native)
  {
    forall i, k | 0 <= i < |preserved| && 0 <= k < |native| && Retained(preserved, native, i) && Survives(native, k)
      ensures preserved[i].id != native[k].id
    {
      PlaceOf(preserved, i);
      SemanticHasKey(preserved, SemanticKey(preserved[i]));
    }
  }

  function Message(id: string, text: string): Item {
    Item(id, "agentMessage", map["text" := Text(text)])
  }

  function PhasedMessage(id: string, text: string): Item {
    Item(id, "agentMessage", map["text" := Text(text), "phase" := Text("final")])
  }

  /** Three inputs. A message read again with another text meets its captured self; the same message
      in a captured turn with two messages of its phase does so even under the same key; and sharing
      an id under another key does no harm when the captured message is replaced by yet another one. */
  lemma IdsCanMeet()
    ensures !IdsFit([Message("m", "a"), Item("t", "webSearch", map[])], [Message("m", "b")])
    ensures !IdsFit([PhasedMessage("m", "a"), PhasedMessage("n", "b")], [PhasedMessage("m", "a")])
    ensures IdsFit([Message("m", "a")], [Message("m", "b"), Message("z", "a")])
  {
    NewKeyMeets();
    LostPlaceMeets();
    OverwrittenFits();
  }

  lemma NewKeyMeets()
    ensures !IdsFit([Message("m", "a"), Item("t", "webSearch", map[])], [Message("m", "b")])
  {
    var p, n := [Message("m", "a"), Item("t", "webSearch", map[])], [Message("m", "b")];
    TextIsInKey("m", "a", "m", "b");
    assert LastWith([], SemanticKey(p[0])) == None && n[..0] == [];
    assert Retained(p, n, 0) && Survives(n, 0);
  }

  lemma LostPlaceMeets()
    ensures !IdsFit([PhasedMessage("m", "a"), PhasedMessage("n", "b")], [PhasedMessage("m", "a")])
  {
    MessageKeys();
    var q, o := [PhasedMessage("m", "a"), PhasedMessage("n", "b")], [PhasedMessage("m", "a")];
    PlaceOf(q, 1);
    assert Retained(q, o, 0) && Survives(o, 0);
  }

  lemma OverwrittenFits()
    ensures IdsFit([Message("m", "a")], [Message("m", "b"), Message("z", "a")])
  {
    MessageKeys();
    var r, s := [Message("m", "a")], [Message("m", "b"), Message("z", "a")];
    PlaceOf(r, 0);
    assert s[1] in s && !Retained(r, s, 0);
  }

  lemma MessageKeys()
    ensures forall id, text :: SemanticKey(Message(id, text)) == "agentMessage\0" + ("text\0" + text)
    ensures forall id, text :: SemanticKey(PhasedMessage(id, text)) == "agentMessage\0" + ("phase\0" + "final")
  {}

  lemma TextIsInKey(a: string, x: string, b: string, y: string)
    requires x != y
    ensures SemanticKey(Message(a, x)) != SemanticKey(Message(b, y))
  {
    MessageKeys();
    var prefix := "agentMessage\0" + "text\0";
    assert SemanticKey(Message(a, x)) == prefix + x && SemanticKey(Message(b, y)) == prefix + y;
    assert (prefix + x)[|prefix|..] == x && (prefix + y)[|prefix|..] == y;
  }

  // ---------------------------------------------------------------- merging again

  /** A merged turn on its way into the same captured items: the first `k` items are in. */
  ghost predicate Halfway(preserved: seq<Item>, r: seq<Item>, k: nat, merged: seq<Item>, semantic: map<string, nat>) {
    ItemsHalfway(preserved, Places(preserved), r, k, merged)
      && KeysHalfway(Semantic(preserved), |preserved|, SemanticKeys(r), k, |merged|, semantic)
  }

  ghost function Places(preserved: seq<Item>): set<nat> {
    set i: nat | i < |preserved| && IsPlace(preserved, i)
  }

  ghost predicate ItemsHalfway(preserved: seq<Item>, places: set<nat>, r: seq<Item>, k: nat, merged: seq<Item>) {
    && k <= |r| && |preserved| <= |r| && |merged| == (if k < |preserved| then |preserved| else k)
    && (forall i :: 0 <= i < k ==> merged[i] == r[i])
    && (forall i :: k <= i < |preserved| && i !in places ==> merged[i] == preserved[i])
  }

  ghost function SemanticKeys(items: seq<Item>): (keys: seq<string>)
    ensures |keys| == |items|
  {
    seq(|items|, i requires 0 <= i < |items| => SemanticKey(items[i]))
  }

  ghost predicate KeysHalfway(first: map<string, nat>, n: nat, keys: seq<string>, k: nat, size: nat,
                              semantic: map<string, nat>)
    requires k <= |keys|
  {
    && (forall key :: key in semantic <==> key in first || exists j :: n <= j < k && keys[j] == key)
    && (forall key :: key in first ==> semantic[key] == first[key])
    && (forall key :: key in semantic ==> semantic[key] < size)
  }

  /** The shape of a merge of these captured items. */
  ghost predicate IsMerged(preserved: seq<Item>, r: seq<Item>) {
    && |preserved| <= |r| && !HasTool(r)
    && (forall i :: 0 <= i < |preserved| ==> SemanticKey(r[i]) == SemanticKey(preserved[i]))
    && (forall i :: 0 <= i < |preserved| && !IsPlace(preserved, i) ==> r[i] == preserved[i])
    && (forall i :: |preserved| <= i < |r| ==> SemanticKey(r[i]) !in Semantic(preserved))
    && (forall i, j :: |preserved| <= i < j < |r| ==> SemanticKey(r[i]) != SemanticKey(r[j]))
  }

  lemma MergeIsMerged(preserved: seq<Item>, native: seq<Item>)
    requires !HasTool(native) && !HasTool(MergeItems(preserved, native))
    ensures IsMerged(preserved, MergeItems(preserved, native))
  {
    var r := MergeItems(preserved, native);
    var end := MergeIsSound(preserved, native);
    forall i | 0 <= i < |preserved| ensures SemanticKey(r[i]) == SemanticKey(preserved[i]) {
      PlaceOf(preserved, i);
      var key := SemanticKey(preserved[i]);
      if !Retained(preserved, native, i) { assert r[end[key]] == LastWith(native, key).value; }
    }
    forall i | |preserved| <= i < |r|
      ensures SemanticKey(r[i]) !in Semantic(preserved) && SemanticKey(r[i]) in end && end[SemanticKey(r[i])] == i
    {
      assert InPlace(native, r[i], end, i);
    }
  }

  lemma OverwriteItems(preserved: seq<Item>, places: set<nat>, r: seq<Item>, k: nat, merged: seq<Item>, place: nat)
    requires ItemsHalfway(preserved, places, r, k, merged) && k <= place < |preserved| && place in places
    requires k < place ==> k !in places && r[k] == preserved[k]
    ensures ItemsHalfway(preserved, places, r, k + 1, merged[place := r[k]])
  {}

  lemma OverwriteAgain(preserved: seq<Item>, r: seq<Item>, k: nat, merged: seq<Item>, semantic: map<string, nat>)
    requires IsMerged(preserved, r) && Halfway(preserved, r, k, merged, semantic) && k < |preserved|
    ensures SemanticKey(r[k]) in semantic
    ensures Halfway(preserved, r, k + 1, merged[semantic[SemanticKey(r[k])] := r[k]], semantic)
  {
    PlaceOf(preserved, k);
    SemanticHasKey(preserved, SemanticKey(preserved[k]));
    OverwriteItems(preserved, Places(preserved), r, k, merged, semantic[SemanticKey(r[k])]);
    assert KeysHalfway(Semantic(preserved), |preserved|, SemanticKeys(r), k + 1, |merged|, semantic);
  }

  lemma AppendItems(preserved: seq<Item>, places: set<nat>, r: seq<Item>, k: nat, merged: seq<Item>)
    requires ItemsHalfway(preserved, places, r, k, merged) && |preserved| <= k < |r|
    ensures ItemsHalfway(preserved, places, r, k + 1, merged + [r[k]])
  {}

  lemma AppendKeys(first: map<string, nat>, n: nat, keys: seq<string>, k: nat, semantic: map<string, nat>)
    requires n <= k < |keys| && KeysHalfway(first, n, keys, k, k, semantic)
    requires keys[k] !in first && forall j :: n <= j < k ==> keys[j] != keys[k]
    ensures keys[k] !in semantic
    ensures KeysHalfway(first, n, keys, k + 1, k + 1, semantic[keys[k] := k])
  {
    var grown := semantic[keys[k] := k];
    forall key ensures key in grown <==> key in first || exists j :: n <= j < k + 1 && keys[j] == key {
      if key == keys[k] { assert keys[k] == key; }
    }
  }

  lemma AppendAgain(preserved: seq<Item>, r: seq<Item>, k: nat, merged: seq<Item>, semantic: map<string, nat>)
    requires IsMerged(preserved, r) && Halfway(preserved, r, k, merged, semantic) && |preserved| <= k < |r|
    ensures SemanticKey(r[k]) !in semantic
    ensures Halfway(preserved, r, k + 1, merged + [r[k]], semantic[SemanticKey(r[k]) := |merged|])
  {
    AppendItems(preserved, Places(preserved), r, k, merged);
    AppendKeys(Semantic(preserved), |preserved|, SemanticKeys(r), k, semantic);
  }

  lemma {:induction false} MergeAgain(preserved: seq<Item>, r: seq<Item>, k: nat, merged: seq<Item>,
                                      semantic: map<string, nat>)
    requires IsMerged(preserved, r) && Halfway(preserved, r, k, merged, semantic)
    ensures MergeInto(merged, semantic, r[k..]) == r
    decreases |r| - k
  {
    if k == |r| {
      assert merged == r;
    } else {
      var item, key := r[k], SemanticKey(r[k]);
      assert !IsTool(item) && r[k..][0] == item && r[k..][1..] == r[k + 1..];
      if k < |preserved| {
        OverwriteAgain(preserved, r, k, merged, semantic);
        MergeAgain(preserved, r, k + 1, merged[semantic[key] := item], semantic);
      } else {
        AppendAgain(preserved, r, k, merged, semantic);
        MergeAgain(preserved, r, k + 1, merged + [item], semantic[key := |merged|]);
      }
    }
  }

  lemma MergedItemsStay(preserved: seq<Item>, native: seq<Item>)
    requires !HasTool(native) && !HasTool(MergeItems(preserved, native))
    ensures MergeItems(preserved, MergeItems(preserved, native)) == MergeItems(preserved, native)
  {
    var r := MergeItems(preserved, native);
    MergeIsMerged(preserved, native);
    MergeAgain(preserved, r, 0, preserved, Semantic(preserved));
    assert r[0..] == r;
  }

  /** Merging the same captured turns twice is merging them once. */
  lemma MergeIsIdempotent(native: Thread, captured: map<string, Turn>, order: seq<string>)
    requires forall i :: 0 <= i < |order| ==> order[i] in captured
    requires forall id :: id in captured ==> captured[id].id == id && HasTool(captured[id].items)
    ensures Merge(Merge(native, captured, order), captured, []) == Merge(native, captured, order)
    ensures Lists(order, captured.Keys - TurnIds(native.turns)) ==>
              Lists([], captured.Keys - TurnIds(Merge(native, captured, order).turns))
  {
    var once := Merge(native, captured, order);
    forall i | 0 <= i < |once.turns| ensures MergeTurn(once.turns[i], captured) == once.turns[i] {
      if i < |native.turns| && native.turns[i].id in captured && !HasTool(native.turns[i].items)
        && !HasTool(once.turns[i].items) {
        MergedItemsStay(captured[native.turns[i].id].items, native.turns[i].items);
      }
    }
    if Lists(order, captured.Keys - TurnIds(native.turns)) {
      forall id | id in captured ensures id in TurnIds(once.turns) {
        if id in TurnIds(native.turns) {
          var i :| 0 <= i < |native.turns| && native.turns[i].id == id;
          assert once.turns[i].id == id;
        } else {
          assert id in captured.Keys - TurnIds(native.turns) && id in order;
          var i :| 0 <= i < |order| && order[i] == id;
          assert once.turns[|native.turns| + i].id == id;
        }
      }
    }
  }

  // ---------------------------------------------------------------- whole turns

  /** A native turn and what was captured for it, if they are merged at all, have fitting ids. */
  ghost predicate TurnFits(turn: Turn, captured: map<string, Turn>) {
    turn.id in captured && !HasTool(turn.items) ==> IdsFit(captured[turn.id].items, turn.items)
  }

  /** A merged turn has distinct ids exactly if it fits. */
  lemma MergedTurnIsDistinct(turn: Turn, captured: map<string, Turn>)
    requires DistinctItems(turn.items) && (turn.id in captured ==> DistinctItems(captured[turn.id].items))
    ensures DistinctItems(MergeTurn(turn, captured).items) <==> TurnFits(turn, captured)
  {
    if turn.id in captured && !HasTool(turn.items) { MergedIdsAreDistinct(captured[turn.id].items, turn.items); }
  }
}
