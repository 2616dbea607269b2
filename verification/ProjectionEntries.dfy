/** The entries of a projection file, as internal/projections/store.go reads them: which are pican's
    own, how duplicates among those are dropped, and how the rest is ordered. */
module ProjectionEntries {
  import opened Options

  // ---------------------------------------------------------------- entries and files

  /** A projection path: the project directory, and the native id that the file name spells. */
  datatype Path = Path(project: string, native: string)

  /** A JSON entry. `json` is its whole encoding; a field it lacks is the empty string. */
  datatype Entry = Entry(kind: string, id: string, timestamp: string, runtime: string, native: string, cwd: string,
                         json: string)

  datatype Line = Malformed | Record(entry: Entry)

  type Files = map<Path, seq<Line>>

  const LocalEntryTypes: set<string> := {"session_info", "label", "model_change", "thinking_level_change"}

  predicate IsLocal(e: Entry) {
    e.kind in LocalEntryTypes
  }

  /** What identifies a local entry: its id, or all of it when it has none. */
  function Key(e: Entry): string {
    if e.id == "" then e.json else e.id
  }

  predicate SafeNative(native: string) {
    native != "" && native != "." && native != ".." && '/' !in native && '\\' !in native && '\0' !in native
  }

  function FirstSession(lines: seq<Line>): Option<Entry> {
    if lines == [] || lines[0].Malformed? then None
    else if lines[0].entry.kind == "session" then Some(lines[0].entry)
    else FirstSession(lines[1..])
  }

  predicate ValidHeader(runtime: string, native: string, header: Entry) {
    header.runtime == runtime && header.native == native && header.native != "" && header.cwd != ""
  }

  /** The file is a projection of the session its name spells. */
  predicate Validated(runtime: string, files: Files, path: Path) {
    && SafeNative(path.native) && path in files && FirstSession(files[path]).Some?
    && ValidHeader(runtime, path.native, FirstSession(files[path]).value)
  }

  predicate Readable(lines: seq<Line>) {
    forall i :: 0 <= i < |lines| ==> lines[i].Record?
  }

  function Records(entries: seq<Entry>): (lines: seq<Line>)
    ensures |lines| == |entries| && Readable(lines)
  {
    seq(|entries|, i requires 0 <= i < |entries| => Record(entries[i]))
  }

  function Locals(lines: seq<Line>): seq<Entry> {
    if lines == [] then []
    else
      var last := lines[|lines| - 1];
      Locals(lines[..|lines| - 1]) + if last.Record? && IsLocal(last.entry) then [last.entry] else []
  }

  lemma {:induction false} LocalsAre(lines: seq<Line>)
    ensures forall e :: e in Locals(lines) <==> Record(e) in lines && IsLocal(e)
  {
    if lines != [] {
      LocalsAre(lines[..|lines| - 1]);
      assert lines == lines[..|lines| - 1] + [lines[|lines| - 1]];
    }
  }

  lemma {:induction false} LocalsOfConcat(a: seq<Line>, b: seq<Line>)
    ensures Locals(a + b) == Locals(a) + Locals(b)
  {
    if b == [] {
      assert a + b == a;
    } else {
      var n := |b| - 1;
      LocalsOfConcat(a, b[..n]);
      assert (a + b)[..|a| + n] == a + b[..n];
    }
  }

  lemma {:induction false} LocalsOfLocals(entries: seq<Entry>)
    requires forall i :: 0 <= i < |entries| ==> IsLocal(entries[i])
    ensures Locals(Records(entries)) == entries
  {
    if entries != [] {
      var n := |entries| - 1;
      LocalsOfLocals(entries[..n]);
      assert Records(entries)[..n] == Records(entries[..n]);
    }
  }

  lemma {:induction false} NoLocals(entries: seq<Entry>)
    requires forall i :: 0 <= i < |entries| ==> !IsLocal(entries[i])
    ensures Locals(Records(entries)) == []
  {
    if entries != [] {
      var n := |entries| - 1;
      NoLocals(entries[..n]);
      assert Records(entries)[..n] == Records(entries[..n]);
    }
  }

  /** Native entries, the first of them the session's header, followed by local ones. */
  lemma LinesOf(built: seq<Entry>, preserved: seq<Entry>)
    requires built != [] && built[0].kind == "session"
    requires forall i :: 0 <= i < |built| ==> !IsLocal(built[i])
    requires forall i :: 0 <= i < |preserved| ==> IsLocal(preserved[i])
    ensures FirstSession(Records(built + preserved)) == Some(built[0])
    ensures Locals(Records(built + preserved)) == preserved
  {
    assert Records(built + preserved) == Records(built) + Records(preserved);
    LocalsOfConcat(Records(built), Records(preserved));
    NoLocals(built);
    LocalsOfLocals(preserved);
  }

  // ---------------------------------------------------------------- keeping one entry per key

  function Keys(entries: seq<Entry>): set<string> {
    set i | 0 <= i < |entries| :: Key(entries[i])
  }

  ghost predicate DistinctKeys(entries: seq<Entry>) {
    forall i, j :: 0 <= i < j < |entries| ==> Key(entries[i]) != Key(entries[j])
  }

  lemma KeysOfMore(entries: seq<Entry>, e: Entry)
    ensures Keys(entries + [e]) == Keys(entries) + {Key(e)}
  {
    var longer := entries + [e];
    assert longer[|entries|] == e;
    forall i | 0 <= i < |entries| ensures longer[i] == entries[i] {}
  }

  /** The first entry of every key. */
  function Deduplicated(entries: seq<Entry>): (r: seq<Entry>)
    ensures Keys(r) == Keys(entries)
  {
    if entries == [] then []
    else
      var n := |entries| - 1;
      var r := Deduplicated(entries[..n]);
      assert entries == entries[..n] + [entries[n]];
      KeysOfMore(entries[..n], entries[n]);
      if Key(entries[n]) in Keys(r) then r
      else
        KeysOfMore(r, entries[n]);
        r + [entries[n]]
  }

  lemma {:induction false} DeduplicatedIsDistinct(entries: seq<Entry>)
    ensures DistinctKeys(Deduplicated(entries))
    ensures forall e :: e in Deduplicated(entries) ==> e in entries
  {
    if entries != [] { DeduplicatedIsDistinct(entries[..|entries| - 1]); }
  }

  /** Among the entries of one key the first is kept. */
  lemma {:induction false} TheFirstIsKept(entries: seq<Entry>, i: nat)
    requires i < |entries| && forall j :: 0 <= j < i ==> Key(entries[j]) != Key(entries[i])
    ensures entries[i] in Deduplicated(entries)
  {
    var n := |entries| - 1;
    if i < n {
      TheFirstIsKept(entries[..n], i);
    } else {
      assert Key(entries[n]) !in Keys(entries[..n]);
    }
  }

  lemma {:induction false} NothingToDeduplicate(entries: seq<Entry>)
    requires DistinctKeys(entries)
    ensures Deduplicated(entries) == entries
  {
    if entries != [] {
      var n := |entries| - 1;
      NothingToDeduplicate(entries[..n]);
      assert Key(entries[n]) !in Keys(entries[..n]);
      assert entries == entries[..n] + [entries[n]];
    }
  }

  // ---------------------------------------------------------------- ordering by timestamp

  /** The byte order of strings. */
  predicate Less(a: string, b: string) {
    if b == "" then false
    else if a == "" then true
    else a[0] < b[0] || (a[0] == b[0] && Less(a[1..], b[1..]))
  }

  lemma {:induction false} LessIsTotal(a: string, b: string)
    ensures !(Less(a, b) && Less(b, a)) && (Less(a, b) || Less(b, a) || a == b)
  {
    if a != "" && b != "" {
      LessIsTotal(a[1..], b[1..]);
      assert a == [a[0]] + a[1..] && b == [b[0]] + b[1..];
    }
  }

  lemma {:induction false} LessIsTransitive(a: string, b: string, c: string)
    requires !Less(b, a) && !Less(c, b)
    ensures !Less(c, a)
  {
    if a != "" && b != "" && c != "" && a[0] == b[0] == c[0] { LessIsTransitive(a[1..], b[1..], c[1..]); }
  }

  ghost predicate Sorted(entries: seq<Entry>) {
    forall i, j :: 0 <= i < j < |entries| ==> !Less(entries[j].timestamp, entries[i].timestamp)
  }

  /** The entries of one timestamp, in their order. */
  function OfTime(entries: seq<Entry>, time: string): seq<Entry> {
    if entries == [] then []
    else AtTime(entries[0], time) + OfTime(entries[1..], time)
  }

  function AtTime(e: Entry, time: string): seq<Entry> {
    if e.timestamp == time then [e] else []
  }

  lemma OfTimeOfMore(e: Entry, entries: seq<Entry>, time: string)
    ensures OfTime([e] + entries, time) == AtTime(e, time) + OfTime(entries, time)
  {
    assert ([e] + entries)[1..] == entries;
  }

  function Insert(e: Entry, entries: seq<Entry>): (r: seq<Entry>)
    ensures multiset(r) == multiset([e]) + multiset(entries)
  {
    if entries == [] || !Less(entries[0].timestamp, e.timestamp) then [e] + entries
    else
      assert entries == [entries[0]] + entries[1..];
      [entries[0]] + Insert(e, entries[1..])
  }

  /** A stable sort by timestamp. */
  function StableSort(entries: seq<Entry>): (r: seq<Entry>)
    ensures multiset(r) == multiset(entries)
  {
    if entries == [] then []
    else
      assert entries == [entries[0]] + entries[1..];
      Insert(entries[0], StableSort(entries[1..]))
  }

  ghost predicate NoneBefore(time: string, entries: seq<Entry>) {
    forall i :: 0 <= i < |entries| ==> !Less(entries[i].timestamp, time)
  }

  lemma SortedFrom(e: Entry, entries: seq<Entry>)
    requires Sorted(entries) && NoneBefore(e.timestamp, entries)
    ensures Sorted([e] + entries)
  {}

  lemma {:induction false} InsertNotBefore(time: string, e: Entry, entries: seq<Entry>)
    requires NoneBefore(time, entries) && !Less(e.timestamp, time)
    ensures NoneBefore(time, Insert(e, entries))
  {
    if entries != [] { InsertNotBefore(time, e, entries[1..]); }
  }

  lemma {:induction false} InsertIsSorted(e: Entry, entries: seq<Entry>)
    requires Sorted(entries)
    ensures Sorted(Insert(e, entries))
  {
    if entries == [] { return; }
    LessIsTotal(entries[0].timestamp, e.timestamp);
    if Less(entries[0].timestamp, e.timestamp) {
      InsertIsSorted(e, entries[1..]);
      InsertNotBefore(entries[0].timestamp, e, entries[1..]);
      SortedFrom(entries[0], Insert(e, entries[1..]));
    } else {
      forall i | 0 <= i < |entries| ensures !Less(entries[i].timestamp, e.timestamp) {
        if i > 0 { LessIsTransitive(e.timestamp, entries[0].timestamp, entries[i].timestamp); }
      }
      SortedFrom(e, entries);
    }
  }

  lemma OneOfTheTimes(d: Entry, e: Entry, time: string, rest: seq<Entry>)
    requires d.timestamp != e.timestamp
    ensures AtTime(e, time) + (AtTime(d, time) + rest) == AtTime(d, time) + (AtTime(e, time) + rest)
  {}

  lemma {:induction false} InsertIsStable(e: Entry, entries: seq<Entry>, time: string)
    ensures OfTime(Insert(e, entries), time) == AtTime(e, time) + OfTime(entries, time)
  {
    if entries != [] && Less(entries[0].timestamp, e.timestamp) {
      LessIsTotal(entries[0].timestamp, e.timestamp);
      InsertIsStable(e, entries[1..], time);
      OfTimeOfMore(entries[0], Insert(e, entries[1..]), time);
      assert e.timestamp != entries[0].timestamp;
      OneOfTheTimes(e, entries[0], time, OfTime(entries[1..], time));
    } else {
      OfTimeOfMore(e, entries, time);
    }
  }

  /** The sort orders by timestamp and leaves entries of equal timestamps in their order. */
  lemma {:induction false} SortIsSortedAndStable(entries: seq<Entry>)
    ensures Sorted(StableSort(entries))
    ensures forall time :: OfTime(StableSort(entries), time) == OfTime(entries, time)
  {
    if entries != [] {
      SortIsSortedAndStable(entries[1..]);
      InsertIsSorted(entries[0], StableSort(entries[1..]));
      forall time ensures OfTime(StableSort(entries), time) == OfTime(entries, time) {
        InsertIsStable(entries[0], StableSort(entries[1..]), time);
      }
    }
  }

  lemma {:induction false} OfTimeMember(entries: seq<Entry>, e: Entry)
    ensures e in OfTime(entries, e.timestamp) <==> e in entries
  {
    if entries != [] {
      OfTimeMember(entries[1..], e);
      assert entries == [entries[0]] + entries[1..];
    }
  }

  /** There is one such order, so it does not matter which stable sort is used. */
  lemma {:induction false} StableOrderIsUnique(a: seq<Entry>, b: seq<Entry>)
    requires Sorted(a) && Sorted(b) && forall time :: OfTime(a, time) == OfTime(b, time)
    ensures a == b
  {
    if a == [] {
      if b != [] { OfTimeMember(b, b[0]); OfTimeMember(a, b[0]); }
    } else {
      OfTimeMember(a, a[0]);
      OfTimeMember(b, a[0]);
      assert b != [];
      OfTimeMember(b, b[0]);
      OfTimeMember(a, b[0]);
      var i, j :| 0 <= i < |a| && a[i] == b[0] && 0 <= j < |b| && b[j] == a[0];
      assert a[0].timestamp == b[0].timestamp by { LessIsTotal(a[0].timestamp, b[0].timestamp); }
      var time := a[0].timestamp;
      assert OfTime(a, time)[0] == a[0] && OfTime(b, time)[0] == b[0];
      forall t ensures OfTime(a[1..], t) == OfTime(b[1..], t) {
        var k := |AtTime(a[0], t)|;
        assert OfTime(a, t)[k..] == OfTime(a[1..], t) && OfTime(b, t)[k..] == OfTime(b[1..], t);
      }
      StableOrderIsUnique(a[1..], b[1..]);
      assert a == [a[0]] + a[1..] && b == [b[0]] + b[1..];
    }
  }

  lemma SortOfSorted(entries: seq<Entry>)
    requires Sorted(entries)
    ensures StableSort(entries) == entries
  {
    SortIsSortedAndStable(entries);
    StableOrderIsUnique(StableSort(entries), entries);
  }

  lemma SortKeepsKeys(entries: seq<Entry>)
    ensures Keys(StableSort(entries)) == Keys(entries)
    ensures forall e :: e in StableSort(entries) <==> e in entries
  {
    var r := StableSort(entries);
    assert forall e :: e in r <==> e in multiset(r);
    assert forall e :: e in entries <==> e in multiset(entries);
    SameKeys(r, entries);
  }

  lemma SameKeys(a: seq<Entry>, b: seq<Entry>)
    requires forall e :: e in a <==> e in b
    ensures Keys(a) == Keys(b)
  {
    forall k ensures k in Keys(a) <==> k in Keys(b) {
      if k in Keys(a) { var i :| 0 <= i < |a| && Key(a[i]) == k; assert a[i] in b; }
      if k in Keys(b) { var i :| 0 <= i < |b| && Key(b[i]) == k; assert b[i] in a; }
    }
  }

  lemma {:induction false} SortKeepsDistinct(entries: seq<Entry>)
    requires DistinctKeys(entries)
    ensures DistinctKeys(StableSort(entries))
  {
    if entries != [] {
      var rest := entries[1..];
      SortKeepsDistinct(rest);
      SortKeepsKeys(rest);
      assert Key(entries[0]) !in Keys(rest) by {
        forall i | 0 <= i < |rest| ensures Key(rest[i]) != Key(entries[0]) { assert rest[i] == entries[i + 1]; }
      }
      InsertKeepsDistinct(entries[0], StableSort(rest));
    }
  }

  lemma {:induction false} InsertKeepsDistinct(e: Entry, entries: seq<Entry>)
    requires DistinctKeys(entries) && Key(e) !in Keys(entries)
    ensures DistinctKeys(Insert(e, entries))
  {
    if entries != [] && Less(entries[0].timestamp, e.timestamp) {
      var rest, r := entries[1..], Insert(e, entries[1..]);
      assert Key(e) !in Keys(rest) by {
        forall i | 0 <= i < |rest| ensures Key(rest[i]) != Key(e) { assert rest[i] == entries[i + 1]; }
      }
      InsertKeepsDistinct(e, rest);
      forall j | 0 <= j < |r| ensures Key(r[j]) != Key(entries[0]) {
        assert r[j] in multiset(r);
        if r[j] != e {
          assert r[j] in multiset(rest);
          var k :| 0 <= k < |rest| && rest[k] == r[j];
          assert entries[k + 1] == r[j];
        }
      }
    }
  }
}
