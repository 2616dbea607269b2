/** The projection of a transcript's tree, internal/claude/projection.go: records that show nothing are
    contracted, and every entry hangs below the last entry of the nearest ancestor that shows something. */
module ClaudeTree {
  import opened Options

  /** A record of the transcript: its native id and its parent's (empty if it has none), its identity,
      and the number of entries it is shown as. */
  datatype Record = Record(uuid: string, parent: string, identity: string, shown: nat)

  /** The id of an entry: an injective hash of its record's identity and its index in the record. */
  datatype EntryId = EntryId(identity: string, index: nat)

  datatype Entry = Entry(id: EntryId, parent: Option<EntryId>)

  // ---------------------------------------------------------------- the two maps

  /** The native parent of every record; a later record overrides an earlier one of the same id. */
  function Parents(records: seq<Record>): map<string, string> {
    if records == [] then map[]
    else
      var r, earlier := records[|records| - 1], Parents(records[..|records| - 1]);
      if r.uuid == "" then earlier else earlier[r.uuid := r.parent]
  }

  /** The last entry of every record that shows any. */
  function LastProjected(records: seq<Record>): map<string, EntryId> {
    if records == [] then map[]
    else
      var r, earlier := records[|records| - 1], LastProjected(records[..|records| - 1]);
      if r.uuid == "" || r.shown == 0 then earlier else earlier[r.uuid := EntryId(r.identity, r.shown - 1)]
  }

  /** resolveParent: the nearest entry upwards, and none once an id repeats. It ends on every input,
      since it visits no known id twice and stops after an unknown one. */
  function Resolve(parents: map<string, string>, last: map<string, EntryId>, uuid: string,
                   seen: set<string>): (r: Option<EntryId>)
    ensures r.Some? ==> r.value in last.Values
    decreases |parents.Keys - seen|, if uuid == "" then 0 else 1
  {
    if uuid == "" || uuid in seen then None
    else if uuid in last then Some(last[uuid])
    else
      var now := seen + {uuid};
      FewerLeft(parents.Keys, seen, uuid);
      Resolve(parents, last, if uuid in parents then parents[uuid] else "", now)
  }

  lemma FewerLeft(keys: set<string>, seen: set<string>, uuid: string)
    requires uuid !in seen
    ensures if uuid in keys then |keys - (seen + {uuid})| < |keys - seen| else keys - (seen + {uuid}) == keys - seen
  {
    assert keys - (seen + {uuid}) == (keys - seen) - {uuid};
  }

  // ---------------------------------------------------------------- the entries

  function ParentOf(records: seq<Record>, r: Record): Option<EntryId> {
    Resolve(Parents(records), LastProjected(records), r.parent, {})
  }

  /** The k-th entry of a record, whose first entry hangs below `root`. */
  function Link(r: Record, root: Option<EntryId>, k: nat): Entry {
    Entry(EntryId(r.identity, k), if k == 0 then root else Some(EntryId(r.identity, k - 1)))
  }

  /** The first `n` entries of a record. */
  function EntriesOf(r: Record, root: Option<EntryId>, n: nat): (s: seq<Entry>)
    ensures |s| == n
  {
    seq(n, k requires 0 <= k < n => Link(r, root, k))
  }

  /** The entries of the first `n` records. */
  function Entries(records: seq<Record>, n: nat): seq<Entry>
    requires n <= |records|
  {
    if n == 0 then []
    else Entries(records, n - 1) + EntriesOf(records[n - 1], ParentOf(records, records[n - 1]), records[n - 1].shown)
  }

  lemma {:induction false} EntryAt(records: seq<Record>, n: nat, e: Entry)
    requires n <= |records|
    ensures e in Entries(records, n) <==>
              exists i, k :: 0 <= i < n && 0 <= k < records[i].shown && e == EntryFor(records, i, k)
  {
    if n > 0 {
      EntryAt(records, n - 1, e);
      var own := EntriesOf(records[n - 1], ParentOf(records, records[n - 1]), records[n - 1].shown);
      forall k | 0 <= k < records[n - 1].shown ensures own[k] == EntryFor(records, n - 1, k) {}
      if e in own { var k :| 0 <= k < |own| && own[k] == e; }
      if i, k :| 0 <= i < n && 0 <= k < records[i].shown && e == EntryFor(records, i, k) {
        if i == n - 1 { assert e == own[k]; }
      }
    }
  }

  function EntryFor(records: seq<Record>, i: nat, k: nat): Entry
    requires i < |records|
  {
    Link(records[i], ParentOf(records, records[i]), k)
  }

  method ProjectTranscript(records: seq<Record>) returns (entries: seq<Entry>)
    ensures entries == Entries(records, |records|)
  {
    var parents: map<string, string>, lastProjected: map<string, EntryId> := map[], map[];
    for i := 0 to |records|
      invariant parents == Parents(records[..i]) && lastProjected == LastProjected(records[..i])
    {
      assert records[..i + 1][..i] == records[..i];
      var r := records[i];
      if r.uuid != "" {
        parents := parents[r.uuid := r.parent];
      }
      if r.shown > 0 && r.uuid != "" {
        lastProjected := lastProjected[r.uuid := EntryId(r.identity, r.shown - 1)];
      }
    }
    assert records[..|records|] == records;
    entries := [];
    for i := 0 to |records|
      invariant entries == Entries(records, i)
    {
      var r := records[i];
      ghost var root := ParentOf(records, r);
      var parent := Resolve(parents, lastProjected, r.parent, {});
      for k := 0 to r.shown
        invariant entries == Entries(records, i) + EntriesOf(r, root, k)
        invariant parent == if k == 0 then root else Some(EntryId(r.identity, k - 1))
      {
        entries := entries + [Entry(EntryId(r.identity, k), parent)];
        parent := Some(EntryId(r.identity, k));
      }
    }
  }

  // ---------------------------------------------------------------- on every input

  lemma {:induction false} LastIsShown(records: seq<Record>, uuid: string)
    requires uuid in LastProjected(records)
    ensures exists i :: 0 <= i < |records| && records[i].uuid == uuid && records[i].shown > 0 &&
              LastProjected(records)[uuid] == EntryId(records[i].identity, records[i].shown - 1)
  {
    var n := |records| - 1;
    if records[n].uuid != uuid || records[n].shown == 0 || uuid == "" {
      LastIsShown(records[..n], uuid);
      var i :| 0 <= i < n && records[..n][i].uuid == uuid && records[..n][i].shown > 0 &&
        LastProjected(records[..n])[uuid] == EntryId(records[..n][i].identity, records[..n][i].shown - 1);
      assert records[i] == records[..n][i];
    } else {
      assert records[n].uuid == uuid;
    }
  }

  ghost predicate Emitted(records: seq<Record>, id: EntryId) {
    exists i :: 0 <= i < |records| && records[i].identity == id.identity && id.index < records[i].shown
  }

  lemma ResolvedIsEmitted(records: seq<Record>, r: Record)
    requires ParentOf(records, r).Some?
    ensures Emitted(records, ParentOf(records, r).value)
  {
    var last, id := LastProjected(records), ParentOf(records, r).value;
    var uuid :| uuid in last && last[uuid] == id;
    LastIsShown(records, uuid);
  }

  lemma EmittedIsEntry(records: seq<Record>, id: EntryId)
    requires Emitted(records, id)
    ensures exists p :: p in Entries(records, |records|) && p.id == id
  {
    var i :| 0 <= i < |records| && records[i].identity == id.identity && id.index < records[i].shown;
    EntryAt(records, |records|, EntryFor(records, i, id.index));
    assert EntryFor(records, i, id.index).id == id;
  }

  /** Every parent that an entry names is itself an entry, even in a transcript whose parent relation is cyclic. */
  lemma ParentsAreEmitted(records: seq<Record>, e: Entry)
    requires e in Entries(records, |records|) && e.parent.Some?
    ensures exists p :: p in Entries(records, |records|) && p.id == e.parent.value
  {
    EntryAt(records, |records|, e);
    var i, k :| 0 <= i < |records| && 0 <= k < records[i].shown && e == EntryFor(records, i, k);
    if k == 0 {
      ResolvedIsEmitted(records, records[i]);
    } else {
      assert Emitted(records, EntryId(records[i].identity, k - 1));
    }
    EmittedIsEntry(records, e.parent.value);
  }

  /** With a cyclic parent relation the entries need not form a forest: these two hang below each other. */
  lemma CyclesSurvive(a: Record, b: Record)
    requires a.uuid != "" && b.uuid != "" && a.uuid != b.uuid && a.parent == b.uuid && b.parent == a.uuid
    requires a.shown > 0 && b.shown > 0
    ensures EntryFor([a, b], 0, 0).parent == Some(EntryId(b.identity, b.shown - 1))
    ensures EntryFor([a, b], 1, 0).parent == Some(EntryId(a.identity, a.shown - 1))
  {
    var records := [a, b];
    assert records[..1] == [a] && [a][..0] == [];
    assert LastProjected([a]) == map[a.uuid := EntryId(a.identity, a.shown - 1)];
  }

  // ---------------------------------------------------------------- on acyclic transcripts

  ghost predicate Known(records: seq<Record>, uuid: string) {
    uuid != "" && exists i :: 0 <= i < |records| && records[i].uuid == uuid
  }

  ghost predicate DistinctUuids(records: seq<Record>) {
    forall i, j :: 0 <= i < j < |records| && records[i].uuid != "" ==> records[i].uuid != records[j].uuid
  }

  /** The native parent relation has no cycle: `rank` decreases upwards. */
  ghost predicate Acyclic(records: seq<Record>, rank: string -> nat) {
    forall i :: 0 <= i < |records| && records[i].uuid != "" && Known(records, records[i].parent) ==>
      rank(records[i].parent) < rank(records[i].uuid)
  }

  ghost predicate DistinctIdentities(records: seq<Record>) {
    forall i, j :: 0 <= i < j < |records| ==> records[i].identity != records[j].identity
  }

  ghost function IndexOf(records: seq<Record>, uuid: string): (i: nat)
    requires Known(records, uuid)
    ensures i < |records| && records[i].uuid == uuid
  {
    var i :| 0 <= i < |records| && records[i].uuid == uuid;
    i
  }

  lemma {:induction false} MapsAre(records: seq<Record>, i: nat)
    requires DistinctUuids(records) && i < |records| && records[i].uuid != ""
    ensures records[i].uuid in Parents(records) && Parents(records)[records[i].uuid] == records[i].parent
    ensures records[i].uuid in LastProjected(records) <==> records[i].shown > 0
    ensures records[i].shown > 0 ==>
              LastProjected(records)[records[i].uuid] == EntryId(records[i].identity, records[i].shown - 1)
  {
    var n := |records| - 1;
    if i < n {
      MapsAre(records[..n], i);
    } else {
      OnlyKnown(records[..n], records[n].uuid);
    }
  }

  lemma {:induction false} OnlyKnown(records: seq<Record>, uuid: string)
    requires !Known(records, uuid)
    ensures uuid !in Parents(records) && uuid !in LastProjected(records)
  {
    if records != [] {
      var n := |records| - 1;
      assert forall i :: 0 <= i < n ==> records[..n][i] == records[i];
      OnlyKnown(records[..n], uuid);
    }
  }

  ghost function Level(records: seq<Record>, rank: string -> nat, uuid: string): nat {
    if Known(records, uuid) then rank(uuid) + 1 else 0
  }

  /** The last entry of the nearest record, from this one upwards, that shows any. */
  ghost function NearestShown(records: seq<Record>, rank: string -> nat, uuid: string): Option<EntryId>
    requires Acyclic(records, rank)
    decreases Level(records, rank, uuid)
  {
    if !Known(records, uuid) then None
    else
      var r := records[IndexOf(records, uuid)];
      if r.shown > 0 then Some(EntryId(r.identity, r.shown - 1)) else NearestShown(records, rank, r.parent)
  }

  /** On an acyclic transcript the search never meets an id again. */
  lemma {:induction false} ResolveIsNearest(records: seq<Record>, rank: string -> nat, uuid: string, seen: set<string>)
    requires DistinctUuids(records) && Acyclic(records, rank)
    requires forall s :: s in seen ==> Known(records, s) && (Known(records, uuid) ==> rank(uuid) < rank(s))
    ensures Resolve(Parents(records), LastProjected(records), uuid, seen) == NearestShown(records, rank, uuid)
    decreases Level(records, rank, uuid)
  {
    if Known(records, uuid) {
      var i := IndexOf(records, uuid);
      MapsAre(records, i);
      if records[i].shown == 0 {
        ResolveIsNearest(records, rank, records[i].parent, seen + {uuid});
      }
    } else {
      OnlyKnown(records, uuid);
    }
  }

  /** The first `k` entries of a record, the latest first. */
  ghost function Below(r: Record, k: nat): seq<EntryId> {
    if k == 0 then [] else [EntryId(r.identity, k - 1)] + Below(r, k - 1)
  }

  /** All entries of a record and of its native ancestors, from the bottom up. */
  ghost function Upwards(records: seq<Record>, rank: string -> nat, uuid: string): seq<EntryId>
    requires Acyclic(records, rank)
    decreases Level(records, rank, uuid)
  {
    if !Known(records, uuid) then []
    else
      var r := records[IndexOf(records, uuid)];
      Below(r, r.shown) + Upwards(records, rank, r.parent)
  }

  /** Following parents, this one first, leads through `path` to a root. */
  ghost predicate LeadsUp(records: seq<Record>, parent: Option<EntryId>, path: seq<EntryId>)
    decreases |path|
  {
    if path == [] then parent.None?
    else
      && parent == Some(path[0])
      && exists p :: p in Entries(records, |records|) && p.id == path[0] && LeadsUp(records, p.parent, path[1..])
  }

  lemma OneUp(records: seq<Record>, i: nat, k: nat, rest: seq<EntryId>)
    requires i < |records| && k < records[i].shown && LeadsUp(records, EntryFor(records, i, k).parent, rest)
    ensures LeadsUp(records, Some(EntryId(records[i].identity, k)), [EntryId(records[i].identity, k)] + rest)
  {
    var p, path := EntryFor(records, i, k), [EntryId(records[i].identity, k)] + rest;
    EntryAt(records, |records|, p);
    assert path[1..] == rest;
  }

  /** The entries form a forest, and the ancestors of an entry are exactly the earlier entries of its
      own record and then all entries of its native ancestors, nearest first. */
  lemma {:induction false} AncestorsAreNative(records: seq<Record>, rank: string -> nat, i: nat, k: nat)
    requires DistinctUuids(records) && Acyclic(records, rank)
    requires i < |records| && k < records[i].shown
    ensures LeadsUp(records, EntryFor(records, i, k).parent,
                    Below(records[i], k) + Upwards(records, rank, records[i].parent))
    decreases Level(records, rank, records[i].parent), k + 1
  {
    var above := Upwards(records, rank, records[i].parent);
    if k > 0 {
      AncestorsAreNative(records, rank, i, k - 1);
      LastEntryUp(records, i, k - 1, above);
    } else {
      ResolveIsNearest(records, rank, records[i].parent, {});
      assert Below(records[i], k) + above == above;
      AboveNearest(records, rank, records[i].parent);
    }
  }

  /** From the nearest entry upwards. */
  lemma {:induction false} AboveNearest(records: seq<Record>, rank: string -> nat, uuid: string)
    requires DistinctUuids(records) && Acyclic(records, rank)
    ensures LeadsUp(records, NearestShown(records, rank, uuid), Upwards(records, rank, uuid))
    decreases Level(records, rank, uuid), 0
  {
    if Known(records, uuid) {
      var j := IndexOf(records, uuid);
      var r := records[j];
      if r.shown == 0 {
        AboveNearest(records, rank, r.parent);
        assert Below(r, r.shown) + Upwards(records, rank, r.parent) == Upwards(records, rank, r.parent);
      } else {
        AncestorsAreNative(records, rank, j, r.shown - 1);
        LastEntryUp(records, j, r.shown - 1, Upwards(records, rank, r.parent));
      }
    }
  }

  lemma LastEntryUp(records: seq<Record>, i: nat, k: nat, above: seq<EntryId>)
    requires i < |records| && k < records[i].shown
    requires LeadsUp(records, EntryFor(records, i, k).parent, Below(records[i], k) + above)
    ensures LeadsUp(records, Some(EntryId(records[i].identity, k)), Below(records[i], k + 1) + above)
  {
    OneUp(records, i, k, Below(records[i], k) + above);
    assert Below(records[i], k + 1) + above == [EntryId(records[i].identity, k)] + (Below(records[i], k) + above);
  }

  /** With distinct identities no two entries share an id. */
  lemma EntryIdsAreDistinct(records: seq<Record>, d: Entry, e: Entry)
    requires DistinctIdentities(records)
    requires d in Entries(records, |records|) && e in Entries(records, |records|) && d.id == e.id
    ensures d == e
  {
    EntryAt(records, |records|, d);
    EntryAt(records, |records|, e);
    var i, k :| 0 <= i < |records| && 0 <= k < records[i].shown && d == EntryFor(records, i, k);
    var j, m :| 0 <= j < |records| && 0 <= m < records[j].shown && e == EntryFor(records, j, m);
    assert records[i].identity == records[j].identity && k == m;
  }

  /** So the way up from an entry is unique. */
  lemma {:induction false} OneWayUp(records: seq<Record>, parent: Option<EntryId>, path: seq<EntryId>,
                                    other: seq<EntryId>)
    requires DistinctIdentities(records) && LeadsUp(records, parent, path) && LeadsUp(records, parent, other)
    ensures path == other
    decreases |path|
  {
    if path != [] {
      var p :| p in Entries(records, |records|) && p.id == path[0] && LeadsUp(records, p.parent, path[1..]);
      var q :| q in Entries(records, |records|) && q.id == other[0] && LeadsUp(records, q.parent, other[1..]);
      EntryIdsAreDistinct(records, p, q);
      OneWayUp(records, p.parent, path[1..], other[1..]);
      assert path == [path[0]] + path[1..] && other == [other[0]] + other[1..];
    }
  }
}
