/** Exactly when the entries of a projected transcript form a forest: internal/claude/projection.go
    guards its search for a parent against cycles, but not the links that the search yields. */
module ClaudeForest {
  import opened Options
  import opened ClaudeTree

  function ParentIn(parents: map<string, string>, uuid: string): string {
    if uuid in parents then parents[uuid] else ""
  }

  /** The n-th native ancestor; the empty string where there is none. */
  function Follow(parents: map<string, string>, uuid: string, n: nat): string
    decreases n
  {
    if n == 0 then uuid else Follow(parents, ParentIn(parents, uuid), n - 1)
  }

  lemma {:induction false} FollowFollow(parents: map<string, string>, uuid: string, m: nat, n: nat)
    ensures Follow(parents, Follow(parents, uuid, m), n) == Follow(parents, uuid, m + n)
    decreases m
  {
    if m > 0 { FollowFollow(parents, ParentIn(parents, uuid), m - 1, n); }
  }

  /** A record that is its own native ancestor. */
  ghost predicate OnCycle(records: seq<Record>, i: nat)
    requires i < |records|
  {
    records[i].uuid != "" && exists n: nat :: Follow(Parents(records), records[i].parent, n) == records[i].uuid
  }

  ghost predicate NoShownCycle(records: seq<Record>) {
    forall i :: 0 <= i < |records| && records[i].shown > 0 ==> !OnCycle(records, i)
  }

  /** Every entry leads up to a root. */
  ghost predicate IsForest(records: seq<Record>) {
    forall e :: e in Entries(records, |records|) ==> Rooted(records, e.parent)
  }

  ghost predicate Rooted(records: seq<Record>, parent: Option<EntryId>) {
    exists path :: LeadsUp(records, parent, path)
  }

  // ---------------------------------------------------------------- what the search finds

  /** After `n` steps from here there is a record that shows something, and this is its last entry. */
  ghost predicate Finds(parents: map<string, string>, last: map<string, EntryId>, uuid: string, n: nat, id: EntryId) {
    var found := Follow(parents, uuid, n);
    found != "" && found in last && id == last[found]
  }

  /** What the search yields is the last entry of a native ancestor. */
  lemma {:induction false} ResolveFollows(parents: map<string, string>, last: map<string, EntryId>, uuid: string,
                                          seen: set<string>)
    returns (n: nat)
    requires Resolve(parents, last, uuid, seen).Some?
    ensures Finds(parents, last, uuid, n, Resolve(parents, last, uuid, seen).value)
    decreases |parents.Keys - seen|, if uuid == "" then 0 else 1
  {
    if uuid in last {
      n := 0;
    } else {
      FewerLeft(parents.Keys, seen, uuid);
      var m := ResolveFollows(parents, last, ParentIn(parents, uuid), seen + {uuid});
      n := m + 1;
      assert Follow(parents, uuid, n) == Follow(parents, ParentIn(parents, uuid), m);
    }
  }

  lemma LastIs(records: seq<Record>, uuid: string) returns (j: nat)
    requires DistinctUuids(records) && uuid in LastProjected(records) && uuid != ""
    ensures j < |records| && records[j].uuid == uuid && records[j].shown > 0
    ensures LastProjected(records)[uuid] == EntryId(records[j].identity, records[j].shown - 1)
    ensures uuid in Parents(records) && Parents(records)[uuid] == records[j].parent
  {
    LastIsShown(records, uuid);
    j :| 0 <= j < |records| && records[j].uuid == uuid && records[j].shown > 0;
    MapsAre(records, j);
  }

  // ---------------------------------------------------------------- without a shown cycle there is a way up

  function Uuids(records: seq<Record>): set<string> {
    set i | 0 <= i < |records| :: records[i].uuid
  }

  /** `v` is a shown record from whose parent this uuid is reached. */
  ghost predicate ComesAfter(records: seq<Record>, v: string, uuid: string) {
    exists i, n: nat :: 0 <= i < |records| && records[i].uuid == v && records[i].shown > 0
                   && Follow(Parents(records), records[i].parent, n) == uuid
  }

  lemma FurtherUp(records: seq<Record>, v: string, i: nat, m: nat)
    requires DistinctUuids(records) && i < |records| && records[i].uuid != "" && ComesAfter(records, v, records[i].uuid)
    ensures ComesAfter(records, v, Follow(Parents(records), records[i].parent, m))
  {
    var parents := Parents(records);
    var j, n: nat :| 0 <= j < |records| && records[j].uuid == v && records[j].shown > 0
                && Follow(parents, records[j].parent, n) == records[i].uuid;
    MapsAre(records, i);
    FollowFollow(parents, records[j].parent, n, m + 1);
    assert Follow(parents, records[j].parent, n + (m + 1)) == Follow(parents, records[i].parent, m);
  }

  lemma NotAfterItself(records: seq<Record>, v: string)
    requires NoShownCycle(records) && v != ""
    ensures !ComesAfter(records, v, v)
  {}

  /** Going up from a shown record, no record is met twice. */
  lemma {:induction false} WayUp(records: seq<Record>, i: nat, k: nat, visited: set<string>)
    returns (path: seq<EntryId>)
    requires DistinctUuids(records) && NoShownCycle(records)
    requires i < |records| && k < records[i].shown && records[i].uuid !in visited
    requires visited != {} ==> records[i].uuid != ""
    requires forall v :: v in visited ==> v != "" && ComesAfter(records, v, records[i].uuid)
    ensures LeadsUp(records, EntryFor(records, i, k).parent, path)
    decreases |Uuids(records) - visited|, if records[i].uuid == "" then 1 else 0, k
  {
    if k > 0 {
      var rest := WayUp(records, i, k - 1, visited);
      OneUp(records, i, k - 1, rest);
      return [EntryId(records[i].identity, k - 1)] + rest;
    }
    if ParentOf(records, records[i]).None? {
      return [];
    }
    var j, now := NextUp(records, i, visited);
    var top := records[j].shown - 1;
    var rest := WayUp(records, j, top, now);
    OneUp(records, j, top, rest);
    return [EntryId(records[j].identity, top)] + rest;
  }

  /** The record that the first entry of this one hangs below, which was not met before. */
  lemma NextUp(records: seq<Record>, i: nat, visited: set<string>) returns (j: nat, now: set<string>)
    requires DistinctUuids(records) && NoShownCycle(records)
    requires i < |records| && records[i].shown > 0 && records[i].uuid !in visited
    requires visited != {} ==> records[i].uuid != ""
    requires forall v :: v in visited ==> v != "" && ComesAfter(records, v, records[i].uuid)
    requires ParentOf(records, records[i]).Some?
    ensures j < |records| && records[j].uuid != "" && records[j].uuid !in now && records[j].shown > 0
    ensures ParentOf(records, records[i]) == Some(EntryId(records[j].identity, records[j].shown - 1))
    ensures forall v :: v in now ==> v != "" && ComesAfter(records, v, records[j].uuid)
    ensures if records[i].uuid == "" then now == visited else |Uuids(records) - now| < |Uuids(records) - visited|
  {
    var parents, last := Parents(records), LastProjected(records);
    var m := ResolveFollows(parents, last, records[i].parent, {});
    j := LastIs(records, Follow(parents, records[i].parent, m));
    now := if records[i].uuid == "" then visited else visited + {records[i].uuid};
    NextIsNew(records, i, m, visited, now);
  }

  lemma NextIsNew(records: seq<Record>, i: nat, m: nat, visited: set<string>, now: set<string>)
    requires DistinctUuids(records) && NoShownCycle(records)
    requires i < |records| && records[i].shown > 0 && records[i].uuid !in visited
    requires visited != {} ==> records[i].uuid != ""
    requires forall v :: v in visited ==> v != "" && ComesAfter(records, v, records[i].uuid)
    requires now == if records[i].uuid == "" then visited else visited + {records[i].uuid}
    requires Follow(Parents(records), records[i].parent, m) != ""
    ensures var uuid := Follow(Parents(records), records[i].parent, m);
            uuid !in now && forall v :: v in now ==> v != "" && ComesAfter(records, v, uuid)
    ensures records[i].uuid != "" ==> |Uuids(records) - now| < |Uuids(records) - visited|
  {
    var uuid := Follow(Parents(records), records[i].parent, m);
    forall v | v in now ensures v != "" && ComesAfter(records, v, uuid) && v != uuid {
      if v in visited { FurtherUp(records, v, i, m); }
      NotAfterItself(records, v);
    }
    if records[i].uuid != "" {
      assert records[i].uuid in Uuids(records);
      assert Uuids(records) - now == (Uuids(records) - visited) - {records[i].uuid};
    }
  }

  // ---------------------------------------------------------------- with one there is none

  /** The first shown record on the way is what the search finds. */
  lemma {:induction false} ResolveFinds(parents: map<string, string>, last: map<string, EntryId>, uuid: string, m: nat,
                                        seen: set<string>)
    requires "" !in last && "" !in parents
    requires Follow(parents, uuid, m) in last && forall t: nat :: t < m ==> Follow(parents, uuid, t) !in last
    requires forall t: nat :: t <= m ==> Follow(parents, uuid, t) !in seen
    ensures Resolve(parents, last, uuid, seen) == Some(last[Follow(parents, uuid, m)])
    decreases m
  {
    assert Follow(parents, uuid, 0) == uuid;
    if m > 0 {
      if uuid == "" { StaysEmpty(parents, m); }
      var next := ParentIn(parents, uuid);
      forall t: nat ensures Follow(parents, next, t) == Follow(parents, uuid, t + 1) {}
      forall t: nat | t <= m - 1 ensures Follow(parents, next, t) !in seen + {uuid} {
        if Follow(parents, uuid, t + 1) == uuid { Shorter(parents, uuid, t + 1, m); }
      }
      ResolveFinds(parents, last, next, m - 1, seen + {uuid});
    }
  }

  lemma {:induction false} StaysEmpty(parents: map<string, string>, m: nat)
    requires "" !in parents
    ensures Follow(parents, "", m) == ""
    decreases m
  {
    if m > 0 { StaysEmpty(parents, m - 1); }
  }

  /** A way that comes back to its start after `t` steps need not take them. */
  lemma Shorter(parents: map<string, string>, uuid: string, t: nat, m: nat)
    requires t <= m && Follow(parents, uuid, t) == uuid
    ensures Follow(parents, uuid, m) == Follow(parents, uuid, m - t)
  {
    FollowFollow(parents, uuid, t, m - t);
  }

  lemma {:induction false} NoEmptyIds(records: seq<Record>)
    ensures "" !in Parents(records) && "" !in LastProjected(records)
  {
    if records != [] { NoEmptyIds(records[..|records| - 1]); }
  }

  /** The first step from which there is a shown record, on a way that meets one at step `n`. */
  lemma {:induction false} FirstShown(parents: map<string, string>, last: map<string, EntryId>, uuid: string, n: nat)
    returns (m: nat)
    requires Follow(parents, uuid, n) in last
    ensures m <= n && Follow(parents, uuid, m) in last && forall t: nat :: t < m ==> Follow(parents, uuid, t) !in last
    decreases n
  {
    if t: nat :| t < n && Follow(parents, uuid, t) in last {
      m := FirstShown(parents, last, uuid, t);
    } else {
      m := n;
    }
  }

  /** A way up from an entry passes through all earlier entries of its record. */
  lemma {:induction false} Descend(records: seq<Record>, i: nat, k: nat, path: seq<EntryId>)
    returns (rest: seq<EntryId>)
    requires DistinctIdentities(records) && i < |records| && k < records[i].shown
    requires LeadsUp(records, EntryFor(records, i, k).parent, path)
    ensures |rest| <= |path| && LeadsUp(records, EntryFor(records, i, 0).parent, rest)
    decreases k
  {
    if k == 0 {
      return path;
    }
    var next := StepUp(records, i, k - 1, path);
    rest := Descend(records, i, k - 1, next);
  }

  /** A way up that starts at an entry goes on from that entry. */
  lemma StepUp(records: seq<Record>, i: nat, k: nat, path: seq<EntryId>) returns (rest: seq<EntryId>)
    requires DistinctIdentities(records) && i < |records| && k < records[i].shown
    requires LeadsUp(records, Some(EntryId(records[i].identity, k)), path)
    ensures |rest| < |path| && LeadsUp(records, EntryFor(records, i, k).parent, rest)
  {
    var p :| p in Entries(records, |records|) && p.id == path[0] && LeadsUp(records, p.parent, path[1..]);
    EntryAt(records, |records|, EntryFor(records, i, k));
    EntryIdsAreDistinct(records, p, EntryFor(records, i, k));
    rest := path[1..];
  }

  /** A way up from below a record that native parents lead to passes through that record. */
  lemma {:induction false} PassesThrough(records: seq<Record>, uuid: string, n: nat, i: nat, path: seq<EntryId>)
    returns (rest: seq<EntryId>)
    requires DistinctUuids(records) && DistinctIdentities(records)
    requires i < |records| && records[i].uuid != "" && records[i].shown > 0
    requires Follow(Parents(records), uuid, n) == records[i].uuid
    requires LeadsUp(records, Resolve(Parents(records), LastProjected(records), uuid, {}), path)
    ensures |rest| < |path| && LeadsUp(records, EntryFor(records, i, 0).parent, rest)
    decreases n
  {
    var parents, last := Parents(records), LastProjected(records);
    NoEmptyIds(records);
    MapsAre(records, i);
    var m := FirstShown(parents, last, uuid, n);
    ResolveFinds(parents, last, uuid, m, {});
    var found := Follow(parents, uuid, m);
    var j := LastIs(records, found);
    var next := StepUp(records, j, records[j].shown - 1, path);
    next := Descend(records, j, records[j].shown - 1, next);
    if j == i {
      rest := next;
    } else {
      FollowFollow(parents, uuid, m, n - m);
      assert m < n && Follow(parents, records[j].parent, n - m - 1) == records[i].uuid;
      rest := PassesThrough(records, records[j].parent, n - m - 1, i, next);
    }
  }

  /** So a record that is its own ancestor has no way up: it would pass through itself again and again. */
  lemma CycleHasNoRoot(records: seq<Record>, i: nat)
    requires DistinctUuids(records) && DistinctIdentities(records)
    requires i < |records| && records[i].shown > 0 && OnCycle(records, i)
    ensures !Rooted(records, EntryFor(records, i, 0).parent)
  {
    var n: nat :| Follow(Parents(records), records[i].parent, n) == records[i].uuid;
    forall path ensures !LeadsUp(records, EntryFor(records, i, 0).parent, path) {
      if LeadsUp(records, EntryFor(records, i, 0).parent, path) {
        var rest := PassesThrough(records, records[i].parent, n, i, path);
        OneWayUp(records, EntryFor(records, i, 0).parent, path, rest);
      }
    }
  }

  // ---------------------------------------------------------------- exactly then

  /** The entries form a forest if and only if no record that shows something is its own native
      ancestor; cycles of records that show nothing do no harm. */
  lemma ForestUnlessShownCycle(records: seq<Record>)
    requires DistinctUuids(records) && DistinctIdentities(records)
    ensures IsForest(records) <==> NoShownCycle(records)
  {
    if NoShownCycle(records) {
      forall e | e in Entries(records, |records|) ensures Rooted(records, e.parent) {
        EntryAt(records, |records|, e);
        var i, k :| 0 <= i < |records| && 0 <= k < records[i].shown && e == EntryFor(records, i, k);
        var path := WayUp(records, i, k, {});
      }
    } else {
      var i :| 0 <= i < |records| && records[i].shown > 0 && OnCycle(records, i);
      CycleHasNoRoot(records, i);
      EntryAt(records, |records|, EntryFor(records, i, 0));
    }
  }

  /** In particular an acyclic parent relation gives a forest. */
  lemma AcyclicIsForest(records: seq<Record>, rank: string -> nat)
    requires DistinctUuids(records) && DistinctIdentities(records) && Acyclic(records, rank)
    ensures IsForest(records) && NoShownCycle(records)
  {
    forall e | e in Entries(records, |records|) ensures Rooted(records, e.parent) {
      EntryAt(records, |records|, e);
      var i, k :| 0 <= i < |records| && 0 <= k < records[i].shown && e == EntryFor(records, i, k);
      AncestorsAreNative(records, rank, i, k);
    }
    ForestUnlessShownCycle(records);
  }

  /** Three inputs, with two records that name each other as parents: both shown, only one shown, and
      neither shown, with a shown child of one of them. */
  lemma TwoRecordCycles(a: Record, b: Record, c: Record)
    requires a.uuid == "a" && b.uuid == "b" && c.uuid == "c" && a.parent == "b" && b.parent == "a" && c.parent == "a"
    ensures a.shown > 0 ==> !NoShownCycle([a, b]) && !NoShownCycle([a, b, c])
    ensures a.shown == 0 && b.shown == 0 ==> NoShownCycle([a, b, c])
  {
    var two, three := [a, b], [a, b, c];
    ParentsOfTwo(a, b, c);
    assert Follow(Parents(two), "b", 1) == Follow(Parents(two), "a", 0)
           && Follow(Parents(three), "b", 1) == Follow(Parents(three), "a", 0);
    assert OnCycle(two, 0) && OnCycle(three, 0);
    forall n: nat ensures Follow(Parents(three), "a", n) != "c" { NeverAtC(Parents(three), n); }
  }

  lemma ParentsOfTwo(a: Record, b: Record, c: Record)
    requires a.uuid == "a" && b.uuid == "b" && c.uuid == "c" && a.parent == "b" && b.parent == "a" && c.parent == "a"
    ensures Parents([a, b]) == map["a" := "b", "b" := "a"]
    ensures Parents([a, b, c]) == map["a" := "b", "b" := "a", "c" := "a"]
  {
    assert [a][..0] == [] && [a, b][..1] == [a] && [a, b, c][..2] == [a, b];
    assert Parents([a]) == map["a" := "b"];
  }

  lemma {:induction false} NeverAtC(parents: map<string, string>, n: nat)
    requires parents == map["a" := "b", "b" := "a", "c" := "a"]
    ensures Follow(parents, "a", n) in {"a", "b"} && Follow(parents, "b", n) in {"a", "b"}
    decreases n
  {
    if n > 0 { NeverAtC(parents, n - 1); }
  }
}
