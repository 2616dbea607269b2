/** The projection store of internal/projections/store.go: rebuilding a session's projection while
    conserving the metadata that pican itself has added to it. */
module ProjectionStore {
  import opened Options
  import opened ProjectionEntries

  // ---------------------------------------------------------------- what Replace computes

  /** `projects` lists the project directories. */
  ghost predicate Listing(projects: seq<string>, files: Files) {
    && (forall i, j :: 0 <= i < j < |projects| ==> projects[i] != projects[j])
    && (forall path :: path in files ==> path.project in projects)
  }

  /** The validated projections of a session in other project directories than the target's. */
  function Others(runtime: string, files: Files, projects: seq<string>, target: Path): seq<Path> {
    if projects == [] then []
    else
      var n := |projects| - 1;
      var candidate := Path(projects[n], target.native);
      Others(runtime, files, projects[..n], target)
        + if candidate != target && Validated(runtime, files, candidate) then [candidate] else []
  }

  lemma {:induction false} OthersAre(runtime: string, files: Files, projects: seq<string>, target: Path)
    ensures forall p :: p in Others(runtime, files, projects, target) <==>
              p.project in projects && p.native == target.native && p != target && Validated(runtime, files, p)
  {
    if projects != [] {
      var n := |projects| - 1;
      OthersAre(runtime, files, projects[..n], target);
      assert projects == projects[..n] + [projects[n]];
    }
  }

  /** The files local entries are preserved from, the target first. */
  function Sources(runtime: string, files: Files, projects: seq<string>, target: Path): seq<Path> {
    (if target in files then [target] else []) + Others(runtime, files, projects, target)
  }

  function LinesAt(files: Files, path: Path): seq<Line> {
    if path in files then files[path] else []
  }

  function Gathered(files: Files, paths: seq<Path>): seq<Entry> {
    if paths == [] then []
    else Gathered(files, paths[..|paths| - 1]) + Locals(LinesAt(files, paths[|paths| - 1]))
  }

  function Preserved(files: Files, paths: seq<Path>): seq<Entry> {
    StableSort(Deduplicated(Gathered(files, paths)))
  }

  predicate ValidReplacement(runtime: string, built: seq<Entry>, native: string, cwd: string) {
    && built != [] && built[0].kind == "session" && built[0].runtime == runtime && built[0].native == native
    && built[0].cwd != "" && built[0].cwd == cwd
  }

  /** What Replace accepts. */
  ghost predicate Acceptable(runtime: string, files: Files, projects: seq<string>, target: Path, cwd: string,
                             built: seq<Entry>) {
    && SafeNative(target.native) && (target in files ==> Validated(runtime, files, target))
    && (forall p :: p in Sources(runtime, files, projects, target) ==> Readable(LinesAt(files, p)))
    && ValidReplacement(runtime, built, target.native, cwd)
  }

  function Rebuilt(runtime: string, files: Files, projects: seq<string>, target: Path, built: seq<Entry>): seq<Line> {
    Records(built + Preserved(files, Sources(runtime, files, projects, target)))
  }

  /** The builder emits the native session alone. */
  ghost predicate NativeOnly(built: seq<Entry>) {
    forall i :: 0 <= i < |built| ==> !IsLocal(built[i])
  }

  /** A local entry of this key is stored for the session. */
  ghost predicate HasLocal(runtime: string, files: Files, native: string, key: string) {
    exists path :: Validated(runtime, files, path) && path.native == native && key in Keys(Locals(files[path]))
  }

  lemma {:induction false} GatheredAreLocal(files: Files, paths: seq<Path>)
    ensures forall e :: e in Gathered(files, paths) <==> exists p :: p in paths && e in Locals(LinesAt(files, p))
  {
    if paths != [] {
      GatheredAreLocal(files, paths[..|paths| - 1]);
      assert paths == paths[..|paths| - 1] + [paths[|paths| - 1]];
    }
  }

  lemma PreservedIs(files: Files, paths: seq<Path>)
    ensures Sorted(Preserved(files, paths)) && DistinctKeys(Preserved(files, paths))
    ensures Keys(Preserved(files, paths)) == Keys(Gathered(files, paths))
    ensures forall e :: e in Preserved(files, paths) ==> e in Gathered(files, paths) && IsLocal(e)
  {
    var gathered := Gathered(files, paths);
    var once := Deduplicated(gathered);
    GatheredAreLocal(files, paths);
    forall e | e in gathered ensures IsLocal(e) {
      var p :| p in paths && e in Locals(LinesAt(files, p));
      LocalsAre(LinesAt(files, p));
    }
    DeduplicatedIsDistinct(gathered);
    SortIsSortedAndStable(once);
    SortKeepsKeys(once);
    SortKeepsDistinct(once);
  }

  /** A rebuilt file is a valid projection whose local entries are the preserved ones. */
  lemma RebuiltIs(runtime: string, files: Files, projects: seq<string>, target: Path, cwd: string, built: seq<Entry>)
    requires Acceptable(runtime, files, projects, target, cwd, built) && NativeOnly(built)
    ensures Readable(Rebuilt(runtime, files, projects, target, built))
    ensures FirstSession(Rebuilt(runtime, files, projects, target, built)) == Some(built[0])
    ensures Locals(Rebuilt(runtime, files, projects, target, built)) ==
            Preserved(files, Sources(runtime, files, projects, target))
  {
    var preserved := Preserved(files, Sources(runtime, files, projects, target));
    PreservedIs(files, Sources(runtime, files, projects, target));
    forall i | 0 <= i < |preserved| ensures IsLocal(preserved[i]) { assert preserved[i] in preserved; }
    LinesOf(built, preserved);
  }

  /** The preserved keys are those of all the session's projections. */
  lemma PreservedKeys(runtime: string, files: Files, projects: seq<string>, target: Path, key: string)
    requires Listing(projects, files) && (target in files ==> Validated(runtime, files, target))
    ensures key in Keys(Preserved(files, Sources(runtime, files, projects, target)))
            <==> HasLocal(runtime, files, target.native, key)
  {
    var paths := Sources(runtime, files, projects, target);
    PreservedIs(files, paths);
    SourcesAre(runtime, files, projects, target);
    GatheredKeys(files, paths, key);
    forall p: Path
      ensures p in paths && key in Keys(Locals(LinesAt(files, p))) <==>
              && Validated(runtime, files, p) && p.native == target.native
              && key in Keys(Locals(LinesAt(files, p)))
    {}
  }

  lemma SourcesAre(runtime: string, files: Files, projects: seq<string>, target: Path)
    requires Listing(projects, files) && (target in files ==> Validated(runtime, files, target))
    ensures forall p ::
              p in Sources(runtime, files, projects, target) <==>
              Validated(runtime, files, p) && p.native == target.native
  {
    OthersAre(runtime, files, projects, target);
  }

  lemma {:induction false} GatheredKeys(files: Files, paths: seq<Path>, key: string)
    ensures key in Keys(Gathered(files, paths)) <==> exists p :: p in paths && key in Keys(Locals(LinesAt(files, p)))
  {
    if paths != [] {
      var n := |paths| - 1;
      GatheredKeys(files, paths[..n], key);
      KeysOfConcat(Gathered(files, paths[..n]), Locals(LinesAt(files, paths[n])));
      assert paths == paths[..n] + [paths[n]];
    }
  }

  // ---------------------------------------------------------------- runs of operations

  /** A committed Replace with the duplicates it removed, or an append. */
  datatype Op =
    | Replaced(target: Path, projects: seq<string>, cwd: string, built: seq<Entry>, removed: set<Path>)
    | Appended(path: Path, entry: Entry)

  ghost predicate Enabled(runtime: string, files: Files, op: Op) {
    match op
    case Replaced(target, projects, cwd, built, removed) =>
      && Listing(projects, files) && NativeOnly(built)
      && Acceptable(runtime, files, projects, target, cwd, built)
      && forall p :: p in removed ==> p != target && p.native == target.native && Validated(runtime, files, p)
    case Appended(path, entry) => IsLocal(entry) && Validated(runtime, files, path)
  }

  ghost function Apply(runtime: string, files: Files, op: Op): Files
    requires Enabled(runtime, files, op)
  {
    match op
    case Replaced(target, projects, cwd, built, removed) =>
      files[target := Rebuilt(runtime, files, projects, target, built)] - removed
    case Appended(path, entry) => files[path := files[path] + [Record(entry)]]
  }

  function NativeOf(op: Op): string {
    if op.Replaced? then op.target.native else op.path.native
  }

  /** Operations on one session leave every other alone. */
  lemma OthersUntouched(runtime: string, files: Files, op: Op, path: Path)
    requires Enabled(runtime, files, op) && path.native != NativeOf(op)
    ensures path in files <==> path in Apply(runtime, files, op)
    ensures LinesAt(Apply(runtime, files, op), path) == LinesAt(files, path)
  {}

  /** A committed Replace conserves the session's local keys, each exactly once and in order in the
      rebuilt file, whichever duplicates it managed to remove. */
  lemma ReplaceConserves(runtime: string, files: Files, op: Op, key: string)
    requires Enabled(runtime, files, op) && op.Replaced?
    ensures var after := Apply(runtime, files, op);
            && Validated(runtime, after, op.target) && Readable(after[op.target])
            && DistinctKeys(Locals(after[op.target])) && Sorted(Locals(after[op.target]))
            && (HasLocal(runtime, files, op.target.native, key) <==> key in Keys(Locals(after[op.target])))
            && (HasLocal(runtime, after, op.target.native, key) <==> HasLocal(runtime, files, op.target.native, key))
  {
    var after, n := Apply(runtime, files, op), op.target.native;
    RebuiltIs(runtime, files, op.projects, op.target, op.cwd, op.built);
    PreservedIs(files, Sources(runtime, files, op.projects, op.target));
    PreservedKeys(runtime, files, op.projects, op.target, key);
    if HasLocal(runtime, after, n, key) {
      var p :| Validated(runtime, after, p) && p.native == n && key in Keys(Locals(after[p]));
      if p != op.target { assert files[p] == after[p] && Validated(runtime, files, p); }
    }
  }

  /** The surviving entry of a key is one that was stored for the session. */
  lemma ReplaceInventsNothing(runtime: string, files: Files, op: Op, e: Entry)
    requires Enabled(runtime, files, op) && op.Replaced? && e in Locals(LinesAt(Apply(runtime, files, op), op.target))
    ensures exists p :: Validated(runtime, files, p) && p.native == op.target.native && e in Locals(files[p])
  {
    var paths := Sources(runtime, files, op.projects, op.target);
    RebuiltIs(runtime, files, op.projects, op.target, op.cwd, op.built);
    PreservedIs(files, paths);
    GatheredAreLocal(files, paths);
    OthersAre(runtime, files, op.projects, op.target);
    var p :| p in paths && e in Locals(LinesAt(files, p));
  }

  ghost predicate Complete(runtime: string, files: Files, op: Op)
    requires op.Replaced?
  {
    forall p :: p != op.target && p.native == op.target.native && Validated(runtime, files, p) ==> p in op.removed
  }

  /** A successful Replace leaves exactly one validated projection of the session. */
  lemma ReplaceLeavesOne(runtime: string, files: Files, op: Op, path: Path)
    requires Enabled(runtime, files, op) && op.Replaced? && Complete(runtime, files, op)
             && path.native == op.target.native
    ensures Validated(runtime, Apply(runtime, files, op), path) <==> path == op.target
  {
    RebuiltIs(runtime, files, op.projects, op.target, op.cwd, op.built);
    var after := Apply(runtime, files, op);
    if path != op.target && path in after {
      assert path in files && after[path] == files[path];
    }
  }

  /** Then a change addressed to a projection that is gone finds the one that is left. */
  lemma MutationFollowsReplace(runtime: string, files: Files, op: Op, projects: seq<string>, path: Path)
    requires Enabled(runtime, files, op) && op.Replaced? && Complete(runtime, files, op)
    requires path.native == op.target.native && path !in Apply(runtime, files, op)
    requires Listing(projects, Apply(runtime, files, op))
    ensures Sources(runtime, Apply(runtime, files, op), projects, path) == [op.target]
  {
    var after := Apply(runtime, files, op);
    ReplaceLeavesOne(runtime, files, op, op.target);
    forall p: Path | p.native == path.native ensures Validated(runtime, after, p) <==> p == op.target {
      ReplaceLeavesOne(runtime, files, op, p);
    }
    OnlyOther(runtime, after, projects, path, op.target);
  }

  lemma OnlyOther(runtime: string, files: Files, projects: seq<string>, path: Path, only: Path)
    requires forall i, j :: 0 <= i < j < |projects| ==> projects[i] != projects[j]
    requires only != path && only.native == path.native && only.project in projects
    requires forall p: Path :: p.native == path.native ==> (Validated(runtime, files, p) <==> p == only)
    ensures Others(runtime, files, projects, path) == [only]
  {
    OthersAre(runtime, files, projects, path);
    SourcesAreDistinct(runtime, files, projects, path);
    JustOne(Others(runtime, files, projects, path), only);
  }

  lemma JustOne(paths: seq<Path>, only: Path)
    requires forall i, j :: 0 <= i < j < |paths| ==> paths[i] != paths[j]
    requires forall p :: p in paths <==> p == only
    ensures paths == [only]
  {
    assert only in paths;
    forall i | 0 <= i < |paths| ensures paths[i] == only { assert paths[i] in paths; }
    AtMostOne(paths, only);
  }

  lemma AtMostOne(paths: seq<Path>, only: Path)
    requires forall i, j :: 0 <= i < j < |paths| ==> paths[i] != paths[j]
    ensures (forall i :: 0 <= i < |paths| ==> paths[i] == only) ==> |paths| <= 1
  {
    assert |paths| > 1 ==> paths[0] != paths[1];
  }

  /** Replacing again with the same builder output would write what the file already holds, and finds
      nothing to remove. */
  lemma ReplaceIsFixpoint(runtime: string, files: Files, op: Op, projects: seq<string>)
    requires Enabled(runtime, files, op) && op.Replaced? && Complete(runtime, files, op)
    requires Listing(projects, Apply(runtime, files, op))
    ensures var after := Apply(runtime, files, op);
            && Acceptable(runtime, after, projects, op.target, op.cwd, op.built)
            && Others(runtime, after, projects, op.target) == []
            && Rebuilt(runtime, after, projects, op.target, op.built) == LinesAt(after, op.target)
  {
    var after, target := Apply(runtime, files, op), op.target;
    RebuiltIs(runtime, files, op.projects, target, op.cwd, op.built);
    NoOthers(runtime, files, op, projects);
    assert Sources(runtime, after, projects, target) == [target];
    PreservedAgain(files, Sources(runtime, files, op.projects, target), after, target);
  }

  lemma PreservedAgain(files: Files, paths: seq<Path>, after: Files, target: Path)
    requires Locals(LinesAt(after, target)) == Preserved(files, paths)
    ensures Preserved(after, [target]) == Preserved(files, paths)
  {
    PreservedIs(files, paths);
    GatheredFromOne(after, target);
    NothingToDeduplicate(Preserved(files, paths));
    SortOfSorted(Preserved(files, paths));
  }

  lemma GatheredFromOne(files: Files, path: Path)
    ensures Gathered(files, [path]) == Locals(LinesAt(files, path))
  {
    assert [path][..0] == [];
    assert Gathered(files, [path]) == Gathered(files, [path][..0]) + Locals(LinesAt(files, path));
  }

  lemma NoOthers(runtime: string, files: Files, op: Op, projects: seq<string>)
    requires Enabled(runtime, files, op) && op.Replaced? && Complete(runtime, files, op)
    ensures Validated(runtime, Apply(runtime, files, op), op.target)
    ensures Others(runtime, Apply(runtime, files, op), projects, op.target) == []
  {
    ReplaceLeavesOne(runtime, files, op, op.target);
    forall p: Path | p != op.target && p.native == op.target.native
      ensures !Validated(runtime, Apply(runtime, files, op), p)
    {
      ReplaceLeavesOne(runtime, files, op, p);
    }
    NoneElse(runtime, Apply(runtime, files, op), projects, op.target);
  }

  lemma {:induction false} NoneElse(runtime: string, files: Files, projects: seq<string>, target: Path)
    requires forall p: Path :: p != target && p.native == target.native ==> !Validated(runtime, files, p)
    ensures Others(runtime, files, projects, target) == []
  {
    if projects != [] { NoneElse(runtime, files, projects[..|projects| - 1], target); }
  }

  /** An append adds one entry to one projection. */
  lemma AppendAddsKey(runtime: string, files: Files, op: Op, key: string)
    requires Enabled(runtime, files, op) && op.Appended?
    ensures HasLocal(runtime, Apply(runtime, files, op), op.path.native, key)
            <==> HasLocal(runtime, files, op.path.native, key) || key == Key(op.entry)
  {
    var after, line := Apply(runtime, files, op), [Record(op.entry)];
    FirstSessionStays(files[op.path], line);
    LocalsOfConcat(files[op.path], line);
    assert line[..0] == [];
    assert Locals(line) == Locals(line[..0]) + [op.entry] == [op.entry];
    KeysOfConcat(Locals(files[op.path]), [op.entry]);
    forall p ensures Validated(runtime, files, p) <==> Validated(runtime, after, p) {}
    if HasLocal(runtime, files, op.path.native, key) {
      var p :| Validated(runtime, files, p) && p.native == op.path.native && key in Keys(Locals(files[p]));
      assert key in Keys(Locals(after[p]));
    }
    if HasLocal(runtime, after, op.path.native, key) && key != Key(op.entry) {
      var p :| Validated(runtime, after, p) && p.native == op.path.native && key in Keys(Locals(after[p]));
      assert key in Keys(Locals(files[p]));
    }
    assert Keys([op.entry]) == {Key(op.entry)} by { assert [op.entry][0] == op.entry; }
    assert Key(op.entry) in Keys(Locals(after[op.path]));
  }

  lemma KeysOfConcat(a: seq<Entry>, b: seq<Entry>)
    ensures Keys(a + b) == Keys(a) + Keys(b)
  {
    forall k | k in Keys(a) + Keys(b) ensures k in Keys(a + b) {
      if k in Keys(a) { var i :| 0 <= i < |a| && Key(a[i]) == k; assert (a + b)[i] == a[i]; }
      else { var i :| 0 <= i < |b| && Key(b[i]) == k; assert (a + b)[|a| + i] == b[i]; }
    }
  }

  lemma {:induction false} FirstSessionStays(lines: seq<Line>, more: seq<Line>)
    requires FirstSession(lines).Some?
    ensures FirstSession(lines + more) == FirstSession(lines)
  {
    assert (lines + more)[0] == lines[0] && (lines + more)[1..] == lines[1..] + more;
    if lines[0].entry.kind != "session" { FirstSessionStays(lines[1..], more); }
  }

  ghost predicate Run(runtime: string, files: Files, ops: seq<Op>, end: Files)
    decreases ops
  {
    if ops == [] then end == files
    else Enabled(runtime, files, ops[0]) && Run(runtime, Apply(runtime, files, ops[0]), ops[1..], end)
  }

  ghost predicate AppendedIn(ops: seq<Op>, native: string, key: string) {
    exists i :: 0 <= i < |ops| && ops[i].Appended? && ops[i].path.native == native && Key(ops[i].entry) == key
  }

  lemma StepChangesKeys(runtime: string, files: Files, op: Op, native: string, key: string)
    requires Enabled(runtime, files, op)
    ensures HasLocal(runtime, Apply(runtime, files, op), native, key)
            <==> (|| HasLocal(runtime, files, native, key)
                  || (op.Appended? && op.path.native == native && Key(op.entry) == key))
  {
    if native == NativeOf(op) {
      if op.Replaced? { ReplaceConserves(runtime, files, op, key); } else { AppendAddsKey(runtime, files, op, key); }
    } else {
      var after := Apply(runtime, files, op);
      forall p: Path | p.native == native
        ensures Validated(runtime, files, p) <==> Validated(runtime, after, p)
        ensures p in files ==> p in after && after[p] == files[p]
      {
        OthersUntouched(runtime, files, op, p);
      }
    }
  }

  /** Over every run of replacements and appends, a session's local keys are those it had and those
      appended to it: none is lost and none appears. */
  lemma {:induction false} LocalMetadataIsConserved(runtime: string, files: Files, ops: seq<Op>, end: Files,
                                                    native: string, key: string)
    requires Run(runtime, files, ops, end)
    ensures HasLocal(runtime, end, native, key)
            <==> HasLocal(runtime, files, native, key) || AppendedIn(ops, native, key)
    decreases ops
  {
    if ops != [] {
      var rest := ops[1..];
      StepChangesKeys(runtime, files, ops[0], native, key);
      LocalMetadataIsConserved(runtime, Apply(runtime, files, ops[0]), rest, end, native, key);
      assert AppendedIn(ops, native, key) <==>
        (ops[0].Appended? && ops[0].path.native == native && Key(ops[0].entry) == key)
          || AppendedIn(rest, native, key) by {
        forall i | 0 <= i < |rest| ensures rest[i] == ops[i + 1] {}
        if AppendedIn(ops, native, key) {
          var i :| 0 <= i < |ops| && ops[i].Appended? && ops[i].path.native == native && Key(ops[i].entry) == key;
          if i > 0 { assert rest[i - 1] == ops[i]; }
        }
      }
    }
  }

  lemma OneMoreEntry(before: seq<Entry>, entries: seq<Entry>, i: nat)
    requires i < |entries|
    ensures before + entries[..i + 1] == before + entries[..i] + [entries[i]]
  {}

  lemma DeduplicatedOneMore(entries: seq<Entry>, e: Entry)
    ensures Deduplicated(entries + [e]) ==
            Deduplicated(entries) + if Key(e) in Keys(Deduplicated(entries)) then [] else [e]
    ensures Keys(Deduplicated(entries + [e])) == Keys(Deduplicated(entries)) + {Key(e)}
  {
    assert (entries + [e])[..|entries|] == entries;
    KeysOfMore(entries, e);
  }

  lemma GatheredOneMore(files: Files, paths: seq<Path>, i: nat)
    requires i < |paths|
    ensures Gathered(files, paths[..i + 1]) == Gathered(files, paths[..i]) + Locals(LinesAt(files, paths[i]))
  {
    assert paths[..i + 1][..i] == paths[..i];
  }

  /** No projection is listed twice, so none is removed twice. */
  lemma {:induction false} SourcesAreDistinct(runtime: string, files: Files, projects: seq<string>, target: Path)
    requires forall i, j :: 0 <= i < j < |projects| ==> projects[i] != projects[j]
    ensures forall i, j :: 0 <= i < j < |Others(runtime, files, projects, target)| ==>
              Others(runtime, files, projects, target)[i] != Others(runtime, files, projects, target)[j]
  {
    if projects != [] {
      var n := |projects| - 1;
      var before := Others(runtime, files, projects[..n], target);
      SourcesAreDistinct(runtime, files, projects[..n], target);
      OthersAre(runtime, files, projects[..n], target);
      forall i | 0 <= i < |before| ensures before[i].project != projects[n] { assert before[i] in before; }
    }
  }

  // ---------------------------------------------------------------- the store

  datatype Metadata = Metadata(runtime: string, native: string, cwd: string)

  /** Which file operations fail during a Replace. */
  datatype Faults = Faults(listing: bool, write: bool, sync: bool, stuck: set<Path>)

  /** How a Replace ends: whether it succeeded, whether it got as far as committing the target, and
      the duplicates it removed. `wrote` tells a committed target that changed from one left alone. */
  datatype Outcome = Outcome(ok: bool, committed: bool, wrote: bool, removed: set<Path>)

  class Store {
    const runtime: string
    var files: Files

    constructor (runtime: string, files: Files)
      ensures this.runtime == runtime && this.files == files
    {
      this.runtime, this.files := runtime, files;
    }

    /** Scan for the header; any other outcome than a header of this very session is an error. */
    method ReadMetadata(path: Path) returns (metadata: Option<Metadata>)
      ensures metadata.Some? <==> Validated(runtime, files, path)
      ensures metadata.Some? ==> metadata.value.runtime == runtime && metadata.value.native == path.native
    {
      if !SafeNative(path.native) || path !in files {
        return None;
      }
      var lines, i := files[path], 0;
      while i < |lines|
        invariant 0 <= i <= |lines|
        invariant FirstSession(lines) == FirstSession(lines[i..])
      {
        if lines[i].Malformed? {
          return None;
        }
        var entry := lines[i].entry;
        if entry.kind == "session" {
          if !ValidHeader(runtime, path.native, entry) {
            return None;
          }
          return Some(Metadata(entry.runtime, entry.native, entry.cwd));
        }
        i := i + 1;
      }
      return None;
    }

    /** The validated projections in other directories than `target`'s, in the order of the listing. */
    method FindOthers(target: Path, projects: seq<string>) returns (paths: seq<Path>)
      ensures paths == Others(runtime, files, projects, target)
    {
      paths := [];
      for i := 0 to |projects|
        invariant paths == Others(runtime, files, projects[..i], target)
      {
        ghost var shorter := projects[..i + 1];
        assert shorter[..i] == projects[..i];
        var candidate := Path(projects[i], target.native);
        if candidate == target {
          continue;
        }
        var metadata := ReadMetadata(candidate);
        if metadata.Some? {
          paths := paths + [candidate];
        }
      }
      assert projects[..|projects|] == projects;
    }

    method ProjectionPaths(target: Path, projects: seq<string>) returns (paths: Option<seq<Path>>)
      ensures paths.None? <==> target in files && !Validated(runtime, files, target)
      ensures paths.Some? ==> paths.value == Sources(runtime, files, projects, target)
    {
      var found := [];
      if target in files {
        var metadata := ReadMetadata(target);
        if metadata.None? {
          return None;
        }
        found := [target];
      }
      var others := FindOthers(target, projects);
      return Some(found + others);
    }

    method ReadLocalEntries(path: Path) returns (locals: Option<seq<Entry>>)
      ensures locals.None? <==> !Readable(LinesAt(files, path))
      ensures locals.Some? ==> locals.value == Locals(LinesAt(files, path))
    {
      var out, lines := [], LinesAt(files, path);
      for i := 0 to |lines|
        invariant Readable(lines[..i]) && out == Locals(lines[..i])
      {
        ghost var shorter := lines[..i + 1];
        assert shorter[..i] == lines[..i];
        if lines[i].Malformed? {
          return None;
        }
        if IsLocal(lines[i].entry) {
          out := out + [lines[i].entry];
        }
      }
      assert lines[..|lines|] == lines;
      return Some(out);
    }

    /** Add the entries whose key was not seen before. */
    method AddUnseen(entries: seq<Entry>, out: seq<Entry>, seen: set<string>, ghost before: seq<Entry>)
      returns (longer: seq<Entry>, keys: set<string>)
      requires out == Deduplicated(before) && seen == Keys(out)
      ensures longer == Deduplicated(before + entries) && keys == Keys(longer)
    {
      longer, keys := out, seen;
      assert before + entries[..0] == before;
      for i := 0 to |entries|
        invariant longer == Deduplicated(before + entries[..i]) && keys == Keys(longer)
      {
        DeduplicatedOneMore(before + entries[..i], entries[i]);
        OneMoreEntry(before, entries, i);
        if Key(entries[i]) in keys {
          continue;
        }
        KeysOfMore(longer, entries[i]);
        keys := keys + {Key(entries[i])};
        longer := longer + [entries[i]];
      }
      assert before + entries[..|entries|] == before + entries;
    }

    method ReadLocalEntriesFrom(paths: seq<Path>) returns (preserved: Option<seq<Entry>>)
      ensures preserved.None? <==> exists p :: p in paths && !Readable(LinesAt(files, p))
      ensures preserved.Some? ==> preserved.value == Preserved(files, paths)
    {
      var out, seen := [], {};
      ghost var gathered := [];
      for i := 0 to |paths|
        invariant forall p :: p in paths[..i] ==> Readable(LinesAt(files, p))
        invariant gathered == Gathered(files, paths[..i])
        invariant out == Deduplicated(gathered) && seen == Keys(out)
      {
        GatheredOneMore(files, paths, i);
        var entries := ReadLocalEntries(paths[i]);
        if entries.None? {
          return None;
        }
        out, seen := AddUnseen(entries.value, out, seen, gathered);
        gathered := gathered + entries.value;
        assert paths[..i + 1] == paths[..i] + [paths[i]];
      }
      assert paths[..|paths|] == paths;
      return Some(StableSort(out));
    }

    /** Remove the duplicates until one resists. */
    method RemoveDuplicates(paths: seq<Path>, target: Path, stuck: set<Path>) returns (ok: bool, removed: set<Path>)
      requires forall p :: p in paths && p != target ==> Validated(runtime, files, p)
      requires forall i, j :: 0 <= i < j < |paths| ==> paths[i] != paths[j]
      modifies this`files
      ensures files == old(files) - removed
      ensures forall p :: p in removed ==> p in paths && p != target
      ensures ok <==> forall p :: p in paths && p != target ==> p !in stuck
      ensures ok ==> forall p :: p in paths && p != target ==> p in removed
    {
      removed := {};
      for i := 0 to |paths|
        invariant files == old(files) - removed
        invariant forall p :: p in removed <==> p in paths[..i] && p != target
        invariant forall p :: p in removed ==> p !in stuck
      {
        var duplicate := paths[i];
        if duplicate == target {
          continue;
        }
        assert duplicate !in removed;
        var metadata := ReadMetadata(duplicate);
        if metadata.None? || duplicate in stuck {
          return false, removed;
        }
        files := files - {duplicate};
        removed := removed + {duplicate};
      }
      return true, removed;
    }

    /** Everything up to the commit: the files to preserve from, and the lines to write. */
    method Prepare(target: Path, cwd: string, projects: seq<string>, built: Option<seq<Entry>>, faults: Faults)
      returns (paths: seq<Path>, lines: Option<seq<Line>>)
      ensures lines.Some? <==>
                !faults.listing && built.Some? && Acceptable(runtime, files, projects, target, cwd, built.value)
      ensures lines.Some? ==> paths == Sources(runtime, files, projects, target)
      ensures lines.Some? ==> lines.value == Rebuilt(runtime, files, projects, target, built.value)
    {
      if !SafeNative(target.native) || faults.listing {
        return [], None;
      }
      var sources := ProjectionPaths(target, projects);
      if sources.None? {
        return [], None;
      }
      var preserved := ReadLocalEntriesFrom(sources.value);
      if preserved.None? || built.None? || !ValidReplacement(runtime, built.value, target.native, cwd) {
        return [], None;
      }
      return sources.value, Some(Records(built.value + preserved.value));
    }

    /** Replace succeeds exactly when everything it relies on is in order, and then has rewritten the
        target and removed the duplicates; unless it commits, it changes nothing. */
    method Replace(target: Path, cwd: string, projects: seq<string>, built: Option<seq<Entry>>, faults: Faults)
      returns (outcome: Outcome)
      requires Listing(projects, files)
      modifies this`files
      ensures !outcome.committed ==> files == old(files) && !outcome.ok
      ensures outcome.committed ==>
                && Accepts(old(files), target, cwd, projects, built)
                && files ==
                old(files)[target := Rebuilt(runtime, old(files), projects, target, built.value)] - outcome.removed
                && outcome.wrote == Changes(old(files), target, projects, built.value)
                && (forall p :: p in outcome.removed ==>
                      p != target && p.native == target.native && Validated(runtime, old(files), p))
      ensures outcome.ok <==>
                && !faults.listing && Accepts(old(files), target, cwd, projects, built)
                && (Changes(old(files), target, projects, built.value) ==> !faults.write && !faults.sync)
                && (forall p :: p in Others(runtime, old(files), projects, target) ==> p !in faults.stuck)
      ensures outcome.ok ==>
                outcome.committed && forall p :: p in Others(runtime, old(files), projects, target) ==>
                    p in outcome.removed
    {
      var paths, lines := Prepare(target, cwd, projects, built, faults);
      if lines.None? {
        return Outcome(false, false, false, {});
      }
      OthersAre(runtime, files, projects, target);
      SourcesAreDistinct(runtime, files, projects, target);
      outcome := Commit(target, lines.value, paths, faults);
    }

    method Commit(target: Path, lines: seq<Line>, paths: seq<Path>, faults: Faults) returns (outcome: Outcome)
      requires forall p :: p in paths && p != target ==> Validated(runtime, files, p)
      requires forall i, j :: 0 <= i < j < |paths| ==> paths[i] != paths[j]
      modifies this`files
      ensures !outcome.committed ==> files == old(files) && !outcome.ok
      ensures outcome.committed ==> files == old(files)[target := lines] - outcome.removed
      ensures outcome.committed ==> outcome.wrote == !(target in old(files) && old(files)[target] == lines)
      ensures forall p :: p in outcome.removed ==> p in paths && p != target
      ensures outcome.ok <==>
                && (!(target in old(files) && old(files)[target] == lines) ==> !faults.write && !faults.sync)
                && (forall p :: p in paths && p != target ==> p !in faults.stuck)
      ensures outcome.ok ==> outcome.committed && forall p :: p in paths && p != target ==> p in outcome.removed
    {
      var wrote := target !in files || files[target] != lines;
      if wrote {
        if faults.write {
          return Outcome(false, false, false, {});
        }
        files := files[target := lines];
        if faults.sync {
          return Outcome(false, true, true, {});
        }
      }
      assert files == old(files)[target := lines];
      var ok, removed := RemoveDuplicates(paths, target, faults.stuck);
      return Outcome(ok, true, wrote, removed);
    }

    ghost predicate Accepts(before: Files, target: Path, cwd: string, projects: seq<string>,
                            built: Option<seq<Entry>>) {
      built.Some? && Acceptable(runtime, before, projects, target, cwd, built.value)
    }

    ghost predicate Changes(before: Files, target: Path, projects: seq<string>, built: seq<Entry>) {
      target !in before || before[target] != Rebuilt(runtime, before, projects, target, built)
    }

    /** The path a change goes to: the one asked for, or, when that is gone, the only projection the
        session has. `seen` says that the path was validated before the lock was taken. */
    method MutationTarget(path: Path, seen: bool, projects: seq<string>) returns (current: Option<Path>)
      requires Listing(projects, files)
      ensures path in files ==> current == if seen && Validated(runtime, files, path) then Some(path) else None
      ensures path !in files ==>
                var found := Sources(runtime, files, projects, path);
                current == if seen && |found| == 1 then Some(found[0]) else None
      ensures current.Some? ==> Validated(runtime, files, current.value) && current.value.native == path.native
    {
      if !seen {
        return None;
      }
      if path in files {
        var metadata := ReadMetadata(path);
        return if metadata.Some? then Some(path) else None;
      }
      OthersAre(runtime, files, projects, path);
      var found := FindOthers(path, projects);
      if |found| != 1 {
        return None;
      }
      assert found[0] in found;
      return Some(found[0]);
    }

    /** Append one local entry to the session's projection, or change nothing. */
    method AppendLocal(path: Path, entry: Entry, seen: bool, projects: seq<string>, writable: bool)
      returns (at: Option<Path>)
      requires Listing(projects, files)
      modifies this`files
      ensures at.None? ==> files == old(files)
      ensures at.Some? ==>
                && IsLocal(entry) && Validated(runtime, old(files), at.value) && at.value.native == path.native
                && files == old(files)[at.value := old(files)[at.value] + [Record(entry)]]
      ensures path in old(files) ==>
                at == if IsLocal(entry) && seen && writable && Validated(runtime, old(files), path) then Some(path)
                  else None
      ensures path !in old(files) ==>
                var found := Sources(runtime, old(files), projects, path);
                at == if IsLocal(entry) && seen && writable && |found| == 1 then Some(found[0]) else None
    {
      if !IsLocal(entry) {
        return None;
      }
      at := MutationTarget(path, seen, projects);
      if at.None? || !writable {
        return None;
      }
      files := files[at.value := files[at.value] + [Record(entry)]];
    }
  }
}
