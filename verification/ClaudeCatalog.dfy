/** The incremental catalog of internal/claude/catalog.go: Sync reparses only transcripts whose
    fingerprint changed, and is proved to do what reparsing everything from scratch would do. */
module ClaudeCatalog {
  import opened Options

  /** A transcript path: its position in the byte order of path names, and the native session id
      that its file name spells. */
  datatype Path = Path(rank: nat, native: string)

  /** What parsing a transcript file yields. */
  datatype Content = Unreadable | Readable(updatedAt: int, complete: bool, body: string)

  /** A native file: its fingerprint (modification time and size) and what it holds. */
  datatype File = File(stamp: nat, content: Content)

  /** What the catalog remembers of a parsed file. */
  datatype FileState = FileState(stamp: nat, native: string, updatedAt: int, complete: bool, materialized: bool)

  /** A projection on disk: the transcript it shows, and whether it is an unused creation intent. */
  datatype Projection = Projection(content: Content, intent: bool)

  datatype Listing = Listing(paths: seq<Path>, complete: bool)

  /** Everything one Sync observes and every failure it meets. `last` is the confirming listing, if
      it succeeded; `visible` the projections the initial scan found. */
  datatype Env = Env(
    fs: map<Path, File>, listing: Listing, last: Option<Listing>, initialErr: bool, visible: set<string>,
    failing: set<string>, unremovable: set<string>)

  // ---------------------------------------------------------------- syncing from scratch

  function ContentAt(env: Env, p: Path): Content {
    if p in env.fs then env.fs[p].content else Unreadable
  }

  predicate ReadableAt(env: Env, p: Path) {
    ContentAt(env, p).Readable?
  }

  /** Of the listed readable files for a session, the newest; of equally new ones, the first. */
  function Best(env: Env, paths: seq<Path>, native: string): (r: Option<Path>)
    ensures r.Some? ==> r.value in paths && ReadableAt(env, r.value) && r.value.native == native
  {
    if paths == [] then None
    else
      var p := paths[|paths| - 1];
      var best := Best(env, paths[..|paths| - 1], native);
      if p.native == native && ReadableAt(env, p)
         && (best.None? || ContentAt(env, best.value).updatedAt < ContentAt(env, p).updatedAt)
      then Some(p) else best
  }

  ghost predicate Ascending(paths: seq<Path>) {
    forall i, j :: 0 <= i < j < |paths| ==> paths[i].rank < paths[j].rank
  }

  /** Every listed file was read completely and no session has two of them. */
  ghost predicate CleanScan(env: Env, paths: seq<Path>) {
    if paths == [] then true
    else
      var p := paths[|paths| - 1];
      && CleanScan(env, paths[..|paths| - 1])
      && ReadableAt(env, p) && ContentAt(env, p).complete && Best(env, paths[..|paths| - 1], p.native).None?
  }

  ghost function Listed(env: Env, paths: seq<Path>): set<string> {
    set p | p in paths && ReadableAt(env, p) :: p.native
  }

  /** Both listings are complete and agree, the initial scan succeeded, and every file was clean. */
  ghost predicate Authoritative(env: Env) {
    && env.listing.complete && !env.initialErr && CleanScan(env, env.listing.paths)
    && env.last.Some? && env.last.value.complete && env.last.value.paths == env.listing.paths
  }

  /** The sessions that a sync wants to show. */
  ghost function Wanted(env: Env): set<string> {
    Listed(env, env.listing.paths)
  }

  /** The projections once these sessions show their best files. */
  ghost function ShownBest(env: Env, shown: set<string>, before: map<string, Projection>): map<string, Projection> {
    map n | n in before.Keys + shown :: if n in shown then Projection(ContentOf(env, n), false) else before[n]
  }

  ghost function ContentOf(env: Env, native: string): Content {
    var best := Best(env, env.listing.paths, native);
    if best.Some? then ContentAt(env, best.value) else Unreadable
  }

  /** The projections a complete scan removes: known ones of sessions that are not listed, unless fresh. */
  ghost function Stale(env: Env, projections: map<string, Projection>): set<string> {
    set n | n in projections && n in env.visible && n !in Listed(env, env.listing.paths) && !projections[n].intent
  }

  ghost function Pruned(env: Env, projections: map<string, Projection>): map<string, Projection> {
    projections - (Stale(env, projections) - env.unremovable)
  }

  /** What a sync comes to: the sessions it lists, whether it is complete, and the projections it leaves. */
  datatype Result = Result(listed: set<string>, complete: bool, projections: map<string, Projection>)

  /** A sync that manages to show these sessions: it prunes only with authority and if it shows all. */
  ghost function Synced(env: Env, before: map<string, Projection>, shown: set<string>): Result {
    var now := ShownBest(env, shown, before);
    if Authoritative(env) && shown == Wanted(env) then
      Result(shown, Stale(env, now) * env.unremovable == {}, Pruned(env, now))
    else Result(shown, false, now)
  }

  /** A sync that parses and materializes everything. */
  ghost function Rescan(env: Env, before: map<string, Projection>): Result {
    Synced(env, before, Wanted(env) - env.failing)
  }

  ghost function FromScratch(env: Env, before: map<string, Projection>): map<string, Projection> {
    Rescan(env, before).projections
  }

  /** Well-formed observations: listings are sorted, and without an error the scan saw everything. */
  ghost predicate Sensible(env: Env, projections: map<string, Projection>) {
    && Ascending(env.listing.paths)
    && env.visible <= projections.Keys && (!env.initialErr ==> env.visible == projections.Keys)
  }

  /** Among duplicates the newest transcript wins, then the one whose path sorts first. */
  lemma {:induction false} BestIsNewest(env: Env, paths: seq<Path>, native: string)
    requires Ascending(paths)
    ensures Best(env, paths, native).None? <==> native !in Listed(env, paths)
    ensures forall q :: q in paths && ReadableAt(env, q) && q.native == native ==>
              var best := Best(env, paths, native);
              best.Some? && (q == best.value || ContentAt(env, q).updatedAt < ContentAt(env, best.value).updatedAt
                || (ContentAt(env, q).updatedAt == ContentAt(env, best.value).updatedAt && best.value.rank < q.rank))
  {
    if paths != [] {
      var n := |paths| - 1;
      BestIsNewest(env, paths[..n], native);
      assert forall q :: q in paths <==> q in paths[..n] || q == paths[n];
    }
  }

  lemma NotListed(env: Env, paths: seq<Path>, native: string)
    requires Ascending(paths) && forall i :: 0 <= i < |paths| ==> ReadableAt(env, paths[i])
    ensures Best(env, paths, native).None? <==> forall i :: 0 <= i < |paths| ==> paths[i].native != native
  {
    BestIsNewest(env, paths, native);
    if native in Listed(env, paths) {
      var p :| p in paths && ReadableAt(env, p) && p.native == native;
      var i :| 0 <= i < |paths| && paths[i] == p;
    } else {
      forall i | 0 <= i < |paths| ensures paths[i].native != native { assert paths[i] in paths; }
    }
  }

  ghost predicate AllRead(env: Env, paths: seq<Path>) {
    forall i :: 0 <= i < |paths| ==> ReadableAt(env, paths[i]) && ContentAt(env, paths[i]).complete
  }

  ghost predicate DistinctSessions(paths: seq<Path>) {
    forall i, j :: 0 <= i < j < |paths| ==> paths[i].native != paths[j].native
  }

  /** What a clean scan amounts to. */
  lemma {:induction false} CleanScanMeans(env: Env, paths: seq<Path>)
    requires Ascending(paths)
    ensures CleanScan(env, paths) <==> AllRead(env, paths) && DistinctSessions(paths)
  {
    if paths != [] {
      var n := |paths| - 1;
      CleanScanMeans(env, paths[..n]);
      if AllRead(env, paths[..n]) { NotListed(env, paths[..n], paths[n].native); }
      forall i | 0 <= i < n ensures paths[..n][i] == paths[i] {}
      assert AllRead(env, paths)
             <==> AllRead(env, paths[..n]) && ReadableAt(env, paths[n]) && ContentAt(env, paths[n]).complete;
      assert DistinctSessions(paths) <==>
        DistinctSessions(paths[..n]) && forall i :: 0 <= i < n ==> paths[..n][i].native != paths[n].native;
    }
  }

  /** Whatever a sync manages to show, a projection disappears only on full authority: the scan was
      complete, both listings agree, every session was shown, no listed file belongs to this one, and
      its projection is not a fresh creation intent. */
  lemma PruningNeedsAuthority(env: Env, before: map<string, Projection>, shown: set<string>, n: string)
    requires Sensible(env, before) && n in before && n !in Synced(env, before, shown).projections
    ensures env.listing.complete && CleanScan(env, env.listing.paths) && shown == Wanted(env) && n in env.visible
    ensures env.last.Some? && env.last.value.complete && env.last.value.paths == env.listing.paths
    ensures (forall p :: p in env.listing.paths ==> p.native != n) && !before[n].intent
  {
    assert n in ShownBest(env, shown, before);
    CleanScanMeans(env, env.listing.paths);
    forall p | p in env.listing.paths ensures p.native != n {
      assert ReadableAt(env, p) && p.native in Wanted(env);
    }
  }

  /** After a complete sync, whatever it skipped, the projections that are not fresh are exactly the
      native sessions, each showing its transcript. */
  lemma CompleteSyncIsExact(env: Env, before: map<string, Projection>, skipped: set<string>)
    requires Sensible(env, before) && UpToDateIn(env, before, skipped) && Incremental(env, before, skipped).complete
    ensures var after := Incremental(env, before, skipped).projections;
            && (forall n :: n in after && !after[n].intent <==> exists p :: p in env.listing.paths && p.native == n)
            && (forall p :: p in env.listing.paths ==> after[p.native] == Projection(ContentAt(env, p), false))
  {
    var after, paths := Incremental(env, before, skipped).projections, env.listing.paths;
    CleanScanMeans(env, paths);
    ShownSurvive(env, before, Wanted(env));
    forall p | p in paths
      ensures p.native in Wanted(env) && p.native in after && after[p.native] == Projection(ContentAt(env, p), false)
    {
      OnlyFileIsBest(env, p);
    }
    forall n | n in after && !after[n].intent ensures exists p :: p in paths && p.native == n {
      var now := ShownBest(env, Wanted(env), before);
      assert n in now && n !in Stale(env, now) by { assert n !in Stale(env, now) * env.unremovable; }
    }
  }

  lemma OnlyFileIsBest(env: Env, p: Path)
    requires Ascending(env.listing.paths) && p in env.listing.paths
    requires AllRead(env, env.listing.paths) && DistinctSessions(env.listing.paths)
    ensures p.native in Wanted(env) && ContentOf(env, p.native) == ContentAt(env, p)
  {
    var paths := env.listing.paths;
    var j :| 0 <= j < |paths| && paths[j] == p;
    assert ReadableAt(env, p) && p.native in Wanted(env);
    BestIsNewest(env, paths, p.native);
    var best := Best(env, paths, p.native).value;
    var i :| 0 <= i < |paths| && paths[i] == best;
  }

  /** Syncing again with nothing changed leaves the projections as they are, if what the second sync
      skips was shown by the first; and if it skips what would fail exactly where the first did, it
      also lists the same sessions and is as complete. */
  lemma SyncIsIdempotent(env: Env, before: map<string, Projection>, skipped: set<string>, again: Env,
                         skippedAgain: set<string>)
    requires Sensible(env, before) && UpToDateIn(env, before, skipped)
    requires again == env.(visible := again.visible)
    requires Sensible(again, Incremental(env, before, skipped).projections)
    requires skippedAgain <= Wanted(env) && skippedAgain * env.failing <= skipped
    ensures var first := Incremental(env, before, skipped);
            var second := Incremental(again, first.projections, skippedAgain);
            && second.projections == first.projections
            && (skippedAgain * env.failing == skipped * env.failing ==> second == first)
  {
    var first := Incremental(env, before, skipped);
    var shown, shownAgain := Wanted(env) - (env.failing - skipped), Wanted(env) - (env.failing - skippedAgain);
    SameBest(env, again, env.listing.paths);
    SameClean(env, again, env.listing.paths);
    assert Wanted(again) == Wanted(env);
    ShownSurvive(env, before, shown);
    ShowsNoMore(Wanted(env), env.failing, skipped, skippedAgain);
    ShownAgain(env, again, shownAgain, first.projections);
    if skippedAgain * env.failing == skipped * env.failing {
      ShowsNoMore(Wanted(env), env.failing, skippedAgain, skipped);
    }
    if Authoritative(env) && shown == Wanted(env) { NothingLeftToPrune(env, before, again); }
  }

  lemma ShowsNoMore(wanted: set<string>, failing: set<string>, skipped: set<string>, skippedAgain: set<string>)
    requires skippedAgain * failing <= skipped
    ensures wanted - (failing - skippedAgain) <= wanted - (failing - skipped)
  {
    forall n | n in skippedAgain && n in failing ensures n in skipped { assert n in skippedAgain * failing; }
  }

  lemma ShownAgain(env: Env, again: Env, shown: set<string>, after: map<string, Projection>)
    requires env.listing == again.listing && env.fs == again.fs
    requires forall n :: Best(env, env.listing.paths, n) == Best(again, env.listing.paths, n)
    requires forall n :: n in shown ==> n in after && after[n] == Projection(ContentOf(env, n), false)
    ensures ShownBest(again, shown, after) == after
  {
    forall n | n in shown ensures ContentOf(again, n) == ContentOf(env, n) {}
  }

  lemma ShownSurvive(env: Env, before: map<string, Projection>, shown: set<string>)
    requires shown <= Wanted(env)
    ensures forall n :: n in shown ==>
              n in Synced(env, before, shown).projections
              && Synced(env, before, shown).projections[n] == Projection(ContentOf(env, n), false)
  {
    forall n | n in shown
      ensures n in ShownBest(env, shown, before) && n !in Stale(env, ShownBest(env, shown, before))
    {}
  }

  /** What a pruning leaves behind is what could not be removed, and that stays so. */
  lemma NothingLeftToPrune(env: Env, before: map<string, Projection>, again: Env)
    requires Sensible(env, before) && Authoritative(env) && again == env.(visible := again.visible)
    requires Wanted(again) == Wanted(env)
    requires Sensible(again, Pruned(env, ShownBest(env, Wanted(env), before)))
    ensures var now := ShownBest(env, Wanted(env), before);
            var after := Pruned(env, now);
            && Pruned(again, after) == after
            && Stale(again, after) * env.unremovable == Stale(env, now) * env.unremovable
  {
    var now := ShownBest(env, Wanted(env), before);
    var after := Pruned(env, now);
    forall n ensures n in Stale(again, after) <==> n in Stale(env, now) && n in env.unremovable {
      if n in after && n !in Wanted(env) { assert n in before && n in env.visible; }
    }
    assert after - (Stale(again, after) - env.unremovable) == after;
  }

  // ---------------------------------------------------------------- failures, and sessions that are skipped

  /** Sessions whose projection already shows their best file. */
  ghost predicate UpToDateIn(env: Env, before: map<string, Projection>, skipped: set<string>) {
    skipped <= Wanted(env) && forall n :: n in skipped ==>
        n in before && before[n] == Projection(ContentOf(env, n), false)
  }

  /** A sync that leaves the skipped sessions alone, whether or not they could be written. */
  ghost function Incremental(env: Env, before: map<string, Projection>, skipped: set<string>): Result {
    Synced(env, before, Wanted(env) - (env.failing - skipped))
  }

  /** The incremental sync does what a rescan does if and only if it skips no session whose
      materialization would fail. */
  lemma RefinementSurvivesFailures(env: Env, before: map<string, Projection>, skipped: set<string>)
    requires UpToDateIn(env, before, skipped)
    ensures Incremental(env, before, skipped) == Rescan(env, before) <==> skipped * env.failing == {}
  {
    if skipped * env.failing == {} {
      assert env.failing - skipped == env.failing by {
        forall n | n in env.failing ensures n !in skipped { assert n !in skipped * env.failing; }
      }
    } else {
      var n :| n in skipped * env.failing;
      assert n in Incremental(env, before, skipped).listed && n !in Rescan(env, before).listed;
    }
  }

  /** Some materialization would fail, and the sync escapes every one by skipping the session. */
  ghost predicate EscapesFailure(env: Env, skipped: set<string>) {
    env.failing * Wanted(env) != {} && env.failing * Wanted(env) <= skipped
  }

  /** Even then both leave the same projections and report the same completeness, except that a sync
      with authority that escapes every failure completes and prunes, which the rescan does not. */
  lemma WhereFailuresShow(env: Env, before: map<string, Projection>, skipped: set<string>)
    requires UpToDateIn(env, before, skipped)
    ensures Incremental(env, before, skipped).projections != Rescan(env, before).projections
            <==> Authoritative(env) && EscapesFailure(env, skipped) && Stale(env, before) - env.unremovable != {}
    ensures Incremental(env, before, skipped).complete != Rescan(env, before).complete
            <==> Authoritative(env) && EscapesFailure(env, skipped) && Stale(env, before) * env.unremovable == {}
  {
    var all, some := Wanted(env) - (env.failing - skipped), Wanted(env) - env.failing;
    var now, then_ := ShownBest(env, all, before), ShownBest(env, some, before);
    assert now == then_ by {
      forall n | n in all && n !in some ensures n in skipped {}
    }
    assert Stale(env, now) == Stale(env, before) by {
      forall n | n in all ensures n in Wanted(env) {}
    }
    AllOrSome(env, skipped);
    if Stale(env, before) - env.unremovable != {} {
      var n :| n in Stale(env, before) - env.unremovable;
      assert n in now && n !in Pruned(env, now);
    } else {
      assert now - (Stale(env, before) - env.unremovable) == now;
    }
  }

  lemma AllOrSome(env: Env, skipped: set<string>)
    ensures Wanted(env) - env.failing == Wanted(env) <==> env.failing * Wanted(env) == {}
    ensures Wanted(env) - (env.failing - skipped) == Wanted(env) <==> env.failing * Wanted(env) <= skipped
  {
    forall n | n in env.failing * Wanted(env) ensures n !in Wanted(env) - env.failing {}
    if env.failing * Wanted(env) == {} {
      forall n | n in Wanted(env) ensures n !in env.failing { assert n !in env.failing * Wanted(env); }
    }
    if Wanted(env) - (env.failing - skipped) == Wanted(env) {
      forall n | n in env.failing * Wanted(env)
        ensures n in skipped
      {
        assert n in Wanted(env) - (env.failing - skipped);
      }
    }
  }

  /** One session, already projected, that could not be written again: a rescan is not complete, and a
      sync that skips it is. */
  lemma SkippedFailureCompletes(env: Env, before: map<string, Projection>)
    requires env.fs == map[Path(0, "s") := File(1, Readable(7, true, "body"))]
    requires env.listing == Listing([Path(0, "s")], true) && env.last == Some(env.listing) && !env.initialErr
    requires env.visible == {"s"} && env.failing == {"s"} && env.unremovable == {}
    requires before == map["s" := Projection(Readable(7, true, "body"), false)]
    ensures Sensible(env, before) && UpToDateIn(env, before, {"s"})
    ensures Incremental(env, before, {"s"}).complete && !Rescan(env, before).complete
  {
    var p := Path(0, "s");
    assert [p][..0] == [] && ReadableAt(env, p) && CleanScan(env, []) && CleanScan(env, [p]);
    assert Wanted(env) == {"s"} by { assert p in [p] && p.native == "s"; }
    assert Best(env, [p], "s") == Some(p);
    WhereFailuresShow(env, before, {"s"});
    assert Stale(env, before) == {};
    assert "s" in env.failing * Wanted(env);
  }

  lemma {:induction false} SameClean(env: Env, other: Env, paths: seq<Path>)
    requires env.fs == other.fs
    ensures CleanScan(env, paths) == CleanScan(other, paths)
  {
    if paths != [] {
      SameClean(env, other, paths[..|paths| - 1]);
      SameBest(env, other, paths[..|paths| - 1]);
    }
  }

  lemma {:induction false} SameBest(env: Env, other: Env, paths: seq<Path>)
    requires env.fs == other.fs
    ensures forall n :: Best(env, paths, n) == Best(other, paths, n)
  {
    if paths != [] { SameBest(env, other, paths[..|paths| - 1]); }
  }

  // ---------------------------------------------------------------- runs of syncs

  /** What the scan at the start of a sync finds: all projections, unless it fails. */
  function Found(env: Env, projections: map<string, Projection>): Env {
    env.(visible := if env.initialErr then env.visible * projections.Keys else projections.Keys)
  }

  function After(results: seq<Result>, before: map<string, Projection>): map<string, Projection> {
    if results == [] then before else results[|results| - 1].projections
  }

  /** A run of syncs over a directory that changes in between, given what each of them skips. */
  ghost function Syncs(envs: seq<Env>, before: map<string, Projection>, skips: seq<set<string>>): (results: seq<Result>)
    requires |skips| == |envs|
    ensures |results| == |envs|
  {
    if envs == [] then []
    else
      var n := |envs| - 1;
      var earlier := Syncs(envs[..n], before, skips[..n]);
      earlier + [Incremental(Found(envs[n], After(earlier, before)), After(earlier, before), skips[n])]
  }

  /** The same run with everything parsed and materialized each time. */
  ghost function Rescans(envs: seq<Env>, before: map<string, Projection>): (results: seq<Result>)
    ensures |results| == |envs|
  {
    if envs == [] then []
    else
      var n := |envs| - 1;
      var earlier := Rescans(envs[..n], before);
      earlier + [Rescan(Found(envs[n], After(earlier, before)), After(earlier, before))]
  }

  /** Whatever is skipped in the run is up to date then. */
  ghost predicate SkipsUpToDate(envs: seq<Env>, before: map<string, Projection>, skips: seq<set<string>>)
    requires |skips| == |envs|
  {
    if envs == [] then true
    else
      var n := |envs| - 1;
      var now := After(Syncs(envs[..n], before, skips[..n]), before);
      SkipsUpToDate(envs[..n], before, skips[..n]) && UpToDateIn(Found(envs[n], now), now, skips[n])
  }

  /** A run of syncs lists, reports and leaves what rescanning each time would if and only if it never
      skips a session whose materialization would fail. */
  lemma {:induction false} RunRefines(envs: seq<Env>, before: map<string, Projection>, skips: seq<set<string>>)
    requires |skips| == |envs| && SkipsUpToDate(envs, before, skips)
    ensures Syncs(envs, before, skips) == Rescans(envs, before)
            <==> forall i :: 0 <= i < |envs| ==> skips[i] * envs[i].failing == {}
  {
    if envs != [] {
      var n := |envs| - 1;
      RunRefines(envs[..n], before, skips[..n]);
      var earlier, scans := Syncs(envs[..n], before, skips[..n]), Rescans(envs[..n], before);
      var now := After(earlier, before);
      RefinementSurvivesFailures(Found(envs[n], now), now, skips[n]);
      assert Syncs(envs, before, skips)[..n] == earlier && Rescans(envs, before)[..n] == scans;
      assert Syncs(envs, before, skips)[n] == Incremental(Found(envs[n], now), now, skips[n]);
      assert earlier == scans ==> Rescans(envs, before)[n] == Rescan(Found(envs[n], now), now);
    }
  }

  /** Listings are sorted, and `world` knows every file. */
  ghost predicate SensibleRun(envs: seq<Env>, world: (Path, nat) -> Content) {
    forall i :: 0 <= i < |envs| ==> Ascending(envs[i].listing.paths) && InWorld(envs[i].fs, world)
  }

  // ---------------------------------------------------------------- the cache

  /** `world` says what each path holds under each fingerprint: a fingerprint determines the content. */
  ghost predicate InWorld(fs: map<Path, File>, world: (Path, nat) -> Content) {
    forall p :: p in fs ==> fs[p].content == world(p, fs[p].stamp)
  }

  /** A remembered state is what parsing that fingerprint yields; and a state marked materialized
      vouches for its session's projection, if there still is one. */
  ghost predicate CoherentAt(p: Path, f: FileState, projections: map<string, Projection>,
                             world: (Path, nat) -> Content) {
    var c := world(p, f.stamp);
    && c.Readable? && f == FileState(f.stamp, p.native, c.updatedAt, c.complete, f.materialized)
    && (f.materialized && p.native in projections ==> projections[p.native] == Projection(c, false))
  }

  ghost predicate Coherent(files: map<Path, FileState>, projections: map<string, Projection>,
                           world: (Path, nat) -> Content) {
    forall p :: p in files ==> CoherentAt(p, files[p], projections, world)
  }

  /** Between syncs files may come, go and change, and projections may disappear or appear for
      sessions no remembered file belongs to: the cache stays coherent. */
  lemma CoherentUnderChange(files: map<Path, FileState>, projections: map<string, Projection>,
                            world: (Path, nat) -> Content, changed: map<string, Projection>)
    requires Coherent(files, projections, world)
    requires forall p :: p in files && p.native in changed ==>
               p.native in projections && changed[p.native] == projections[p.native]
    ensures Coherent(files, changed, world)
  {
    forall p | p in files ensures CoherentAt(p, files[p], changed, world) {
      assert CoherentAt(p, files[p], projections, world);
    }
  }

  /** A chosen file and its remembered state. */
  datatype Candidate = Candidate(path: Path, state: FileState)

  /** The remembered state of `p` is the one its present content calls for. */
  ghost predicate UpToDate(env: Env, p: Path, state: FileState) {
    && ReadableAt(env, p)
    && state ==
       FileState(env.fs[p].stamp, p.native, ContentAt(env, p).updatedAt, ContentAt(env, p).complete, state.materialized)
  }

  /** The candidate of every session is its best file so far, as remembered. */
  ghost predicate Chosen(env: Env, paths: seq<Path>, candidates: map<string, Candidate>, files: map<Path, FileState>) {
    forall n :: ChosenFor(env, paths, n, candidates, files)
  }

  ghost predicate ChosenFor(env: Env, paths: seq<Path>, n: string, candidates: map<string, Candidate>,
                            files: map<Path, FileState>) {
    var best := Best(env, paths, n);
    if best.None? then n !in candidates
    else
      && n in candidates && candidates[n].path == best.value && best.value in files
      && candidates[n].state == files[best.value] && UpToDate(env, best.value, files[best.value])
  }

  /** The choice between the candidate so far and the next file of its session. */
  function Choose(candidates: map<string, Candidate>, path: Path, state: FileState): map<string, Candidate> {
    if state.native in candidates then
      var current := candidates[state.native];
      if state.updatedAt < current.state.updatedAt
         || (state.updatedAt == current.state.updatedAt && path.rank >= current.path.rank)
      then candidates else candidates[state.native := Candidate(path, state)]
    else candidates[state.native := Candidate(path, state)]
  }

  lemma ChoosingTakesBest(env: Env, paths: seq<Path>, i: nat, candidates: map<string, Candidate>,
                          files: map<Path, FileState>)
    requires i < |paths| && Ascending(paths) && Chosen(env, paths[..i], candidates, files)
    requires paths[i] in files && UpToDate(env, paths[i], files[paths[i]])
    ensures Chosen(env, paths[..i + 1], Choose(candidates, paths[i], files[paths[i]]), files)
    ensures CleanScan(env, paths[..i + 1]) <==>
              CleanScan(env, paths[..i]) && files[paths[i]].complete && paths[i].native !in candidates
  {
    var path := paths[i];
    assert paths[..i + 1][..i] == paths[..i];
    assert ChosenFor(env, paths[..i], path.native, candidates, files);
    var best := Best(env, paths[..i], path.native);
    if best.Some? {
      var j :| 0 <= j < i && paths[..i][j] == best.value;
      assert paths[j].rank < path.rank;
    }
    var candidates', now := Choose(candidates, path, files[path]), paths[..i + 1];
    forall n | n != path.native ensures ChosenFor(env, now, n, candidates', files) {
      assert ChosenFor(env, paths[..i], n, candidates, files);
      assert Best(env, now, n) == Best(env, paths[..i], n);
    }
    assert ChosenFor(env, now, path.native, candidates', files);
  }

  lemma SkippingUnreadable(env: Env, paths: seq<Path>, i: nat, candidates: map<string, Candidate>,
                           files: map<Path, FileState>)
    requires i < |paths| && !ReadableAt(env, paths[i]) && Chosen(env, paths[..i], candidates, files)
    ensures Chosen(env, paths[..i + 1], candidates, files) && !CleanScan(env, paths[..i + 1])
  {
    var now := paths[..i + 1];
    assert now[..i] == paths[..i];
    forall n ensures ChosenFor(env, now, n, candidates, files) {
      assert ChosenFor(env, paths[..i], n, candidates, files);
    }
  }

  /** Withdraw the materialized mark from every file of a session. */
  function Unmarked(files: map<Path, FileState>, n: string): map<Path, FileState> {
    map p | p in files :: if p.native == n then files[p].(materialized := false) else files[p]
  }

  /** Rebuilding a session from one file and marking only that file keeps the cache coherent. */
  lemma Rebuilt(files: map<Path, FileState>, projections: map<string, Projection>, world: (Path, nat) -> Content,
                n: string, candidate: Candidate)
    requires Coherent(files, projections, world)
    requires candidate.path in files && candidate.path.native == n && candidate.state == files[candidate.path]
    ensures Coherent(Unmarked(files, n)[candidate.path := candidate.state.(materialized := true)],
                     projections[n := Projection(world(candidate.path, candidate.state.stamp), false)], world)
  {
    var files' := Unmarked(files, n)[candidate.path := candidate.state.(materialized := true)];
    var projections' := projections[n := Projection(world(candidate.path, candidate.state.stamp), false)];
    forall p | p in files' ensures CoherentAt(p, files'[p], projections', world) {
      assert CoherentAt(p, files[p], projections, world);
    }
  }

  /** The remembered state of a file is current and marked as materialized. */
  ghost predicate Marked(env: Env, files: map<Path, FileState>, p: Path) {
    p in files && p in env.fs && files[p].stamp == env.fs[p].stamp && files[p].materialized
  }

  /** The sessions that a sync with this cache leaves alone. */
  ghost function Skipped(env: Env, files: map<Path, FileState>): set<string> {
    set n | n in Wanted(env) && n in env.visible && MarkedBest(env, files, n)
  }

  ghost predicate MarkedBest(env: Env, files: map<Path, FileState>, n: string) {
    var best := Best(env, env.listing.paths, n);
    best.Some? && Marked(env, files, best.value)
  }

  /** A coherent cache skips only sessions whose projection is up to date. */
  lemma SkippedAreUpToDate(env: Env, files: map<Path, FileState>, projections: map<string, Projection>,
                           world: (Path, nat) -> Content)
    requires Coherent(files, projections, world) && InWorld(env.fs, world) && env.visible <= projections.Keys
    ensures UpToDateIn(env, projections, Skipped(env, files))
  {
    forall n | n in Skipped(env, files)
      ensures n in projections && projections[n] == Projection(ContentOf(env, n), false)
    {
      var best := Best(env, env.listing.paths, n).value;
      assert CoherentAt(best, files[best], projections, world);
    }
  }

  /** A session that fails keeps its marks and its projection, so that the next sync skips it if and
      only if this one did. */
  lemma FailingStaySkipped(env: Env, before: map<string, Projection>, files: map<Path, FileState>,
                           left: map<Path, FileState>)
    requires var now := Found(env, before);
             && UpToDateIn(now, before, Skipped(now, files))
             && forall n :: n in env.failing ==> MarkedBest(now, left, n) == MarkedBest(now, files, n)
    ensures var now := Found(env, before);
            var again := Found(env, Incremental(now, before, Skipped(now, files)).projections);
            && Skipped(again, left) <= Wanted(now)
            && Skipped(again, left) * env.failing == Skipped(now, files) * env.failing
  {
    var now := Found(env, before);
    var skipped := Skipped(now, files);
    var after := Incremental(now, before, skipped).projections;
    var again := Found(env, after);
    SameBest(now, again, env.listing.paths);
    assert Wanted(again) == Wanted(now);
    ShownSurvive(now, before, Wanted(now) - (env.failing - skipped));
    forall n | n in env.failing && n in Wanted(now) ensures n in after <==> n in before {}
    forall n ensures MarkedBest(again, left, n) == MarkedBest(now, left, n) {}
    forall n | n in env.failing ensures n in Skipped(again, left) <==> n in skipped {}
  }

  lemma TheSecondDoesTheSame(env: Env, before: map<string, Projection>, files: map<Path, FileState>,
                             left: map<Path, FileState>)
    requires Ascending(env.listing.paths)
    requires var now := Found(env, before);
             && UpToDateIn(now, before, Skipped(now, files))
             && forall n :: n in env.failing ==> MarkedBest(now, left, n) == MarkedBest(now, files, n)
    ensures var now := Found(env, before);
            var first := Incremental(now, before, Skipped(now, files));
            var again := Found(env, first.projections);
            Incremental(again, first.projections, Skipped(again, left)) == first
  {
    var now := Found(env, before);
    var skipped := Skipped(now, files);
    var again := Found(env, Incremental(now, before, skipped).projections);
    FailingStaySkipped(env, before, files, left);
    SyncIsIdempotent(now, before, skipped, again, Skipped(again, left));
  }

  lemma CandidatesAreListed(env: Env, candidates: map<string, Candidate>, files: map<Path, FileState>)
    requires Ascending(env.listing.paths) && Chosen(env, env.listing.paths, candidates, files)
    ensures candidates.Keys == Listed(env, env.listing.paths)
  {
    forall n ensures n in candidates <==> n in Listed(env, env.listing.paths) {
      assert ChosenFor(env, env.listing.paths, n, candidates, files);
      BestIsNewest(env, env.listing.paths, n);
    }
  }

  lemma SkipsIfMarked(env: Env, candidates: map<string, Candidate>, files: map<Path, FileState>, n: string)
    requires Ascending(env.listing.paths) && n in candidates && ChosenFor(env, env.listing.paths, n, candidates, files)
    ensures n in Skipped(env, files) <==> candidates[n].state.materialized && n in env.visible
  {
    BestIsNewest(env, env.listing.paths, n);
  }

  lemma ShowOneMore(env: Env, shown: set<string>, before: map<string, Projection>, n: string)
    ensures ShownBest(env, shown + {n}, before) ==
            ShownBest(env, shown, before)[n := Projection(ContentOf(env, n), false)]
  {}

  lemma TakeOne(all: set<string>, left: set<string>, lost: set<string>, n: string)
    requires n in left && left <= all
    ensures all - (left - {n}) - lost == all - left - lost + if n in lost then {} else {n}
  {}

  class Catalog {
    var files: map<Path, FileState>
    var projections: map<string, Projection>

    constructor ()
      ensures files == map[] && projections == map[]
    {
      files, projections := map[], map[];
    }

    /** Look at one listed file, reparsing it if its fingerprint changed. */
    method Remember(env: Env, path: Path, ghost world: (Path, nat) -> Content) returns (readable: bool)
      requires InWorld(env.fs, world) && Coherent(files, projections, world)
      modifies this`files
      ensures Coherent(files, projections, world)
      ensures readable <==> ReadableAt(env, path)
      ensures readable ==> path in files && UpToDate(env, path, files[path])
      ensures files == old(files) || (path in files && files == old(files)[path := files[path]])
      ensures forall p :: Marked(env, files, p) == Marked(env, old(files), p)
    {
      if path !in env.fs {
        return false;
      }
      var info := env.fs[path];
      assert path in files ==> CoherentAt(path, files[path], projections, world);
      if path !in files || files[path].stamp != info.stamp {
        if info.content.Unreadable? {
          return false;
        }
        var state := FileState(info.stamp, path.native, info.content.updatedAt, info.content.complete, false);
        assert CoherentAt(path, state, projections, world);
        files := files[path := state];
      }
      return true;
    }

    /** The first loop: reparse what changed and choose one file per session. */
    method ChooseFiles(env: Env, ghost world: (Path, nat) -> Content)
      returns (candidates: map<string, Candidate>, clean: bool)
      requires InWorld(env.fs, world) && Coherent(files, projections, world) && Ascending(env.listing.paths)
      modifies this`files
      ensures Coherent(files, projections, world)
      ensures Chosen(env, env.listing.paths, candidates, files)
      ensures clean <==> CleanScan(env, env.listing.paths)
      ensures forall p :: Marked(env, files, p) == Marked(env, old(files), p)
    {
      candidates, clean := map[], true;
      var paths := env.listing.paths;
      assert Chosen(env, paths[..0], candidates, files);
      for i := 0 to |paths|
        invariant Coherent(files, projections, world)
        invariant Chosen(env, paths[..i], candidates, files)
        invariant clean <==> CleanScan(env, paths[..i])
        invariant forall p :: Marked(env, files, p) == Marked(env, old(files), p)
      {
        var path := paths[i];
        ghost var known := files;
        var readable := Remember(env, path, world);
        ChosenStill(env, paths, i, candidates, known, files);
        if !readable {
          SkippingUnreadable(env, paths, i, candidates, files);
          clean := false;
          continue;
        }
        ChoosingTakesBest(env, paths, i, candidates, files);
        var state := files[path];
        assert state.native == path.native;
        clean := clean && state.complete && state.native !in candidates;
        candidates := Choose(candidates, path, state);
      }
      assert paths[..|paths|] == paths;
    }

    /** One turn of the second loop: leave a session whose projection is known to be current, and
        rebuild any other from its chosen file. */
    method Materialize(env: Env, n: string, candidate: Candidate, ghost world: (Path, nat) -> Content)
      returns (ok: bool)
      requires InWorld(env.fs, world) && Coherent(files, projections, world)
      requires candidate.path in files && candidate.path.native == n && UpToDate(env, candidate.path, candidate.state)
      requires candidate.state == files[candidate.path] && env.visible <= projections.Keys
      modifies this
      ensures Coherent(files, projections, world) && files.Keys == old(files).Keys
      ensures forall p :: p in files && p.native != n ==> files[p] == old(files)[p]
      ensures ok ==> projections == old(projections)[n := Projection(ContentAt(env, candidate.path), false)]
      ensures !ok ==> projections == old(projections)
      ensures ok <==> (candidate.state.materialized && n in env.visible) || n !in env.failing
      ensures n in env.failing ==> files == old(files)
    {
      var state := candidate.state;
      assert CoherentAt(candidate.path, state, projections, world);
      if !state.materialized || n !in env.visible {
        if n in env.failing {
          return false;
        }
        Rebuilt(files, projections, world, n, candidate);
        projections := projections[n := Projection(ContentAt(env, candidate.path), false)];
        files := Unmarked(files, n);
        state := state.(materialized := true);
        files := files[candidate.path := state];
        return true;
      }
      files := files[candidate.path := state];
      assert projections[n := projections[n]] == projections;
      return true;
    }

    /** The second loop, over the sessions in any order. */
    method MaterializeAll(env: Env, candidates: map<string, Candidate>, ghost world: (Path, nat) -> Content)
      returns (listed: set<string>)
      requires InWorld(env.fs, world) && Coherent(files, projections, world)
      requires Chosen(env, env.listing.paths, candidates, files) && env.visible <= projections.Keys
      requires Ascending(env.listing.paths)
      modifies this
      ensures Coherent(files, projections, world)
      ensures listed == candidates.Keys - (env.failing - Skipped(env, old(files)))
      ensures projections == ShownBest(env, listed, old(projections))
      ensures forall n :: n in env.failing ==> MarkedBest(env, files, n) == MarkedBest(env, old(files), n)
    {
      listed := {};
      var left := candidates.Keys;
      ghost var known, before, lost := files, projections, env.failing - Skipped(env, files);
      assert ShownBest(env, {}, before) == before;
      while left != {}
        invariant left <= candidates.Keys
        invariant Coherent(files, projections, world) && files.Keys == known.Keys && env.visible <= projections.Keys
        invariant listed == candidates.Keys - left - lost
        invariant forall p :: p in files && (p.native in left || p.native in env.failing) ==> files[p] == known[p]
        invariant projections == ShownBest(env, listed, before)
      {
        var n :| n in left;
        assert ChosenFor(env, env.listing.paths, n, candidates, known);
        SkipsIfMarked(env, candidates, known, n);
        ShowOneMore(env, listed, before, n);
        TakeOne(candidates.Keys, left, lost, n);
        left := left - {n};
        var ok := Materialize(env, n, candidates[n], world);
        if ok {
          listed := listed + {n};
        }
      }
    }

    /** The whole of Sync: what it returns and leaves is what a rescan would, except that a session
        whose projection is known to be current counts as shown even if it could not be written. */
    method Sync(env: Env, ghost world: (Path, nat) -> Content) returns (listed: set<string>, complete: bool)
      requires Sensible(env, projections) && InWorld(env.fs, world) && Coherent(files, projections, world)
      modifies this
      ensures Coherent(files, projections, world)
      ensures forall p :: p in files ==> p in env.listing.paths
      ensures Result(listed, complete, projections) == Incremental(env, old(projections), Skipped(env, old(files)))
      ensures UpToDateIn(env, old(projections), Skipped(env, old(files)))
      ensures forall n :: n in old(projections) && n !in projections ==>
                Authoritative(env) && n in env.visible && n !in Wanted(env) && !old(projections)[n].intent
      ensures forall n :: n in env.failing ==> MarkedBest(env, files, n) == MarkedBest(env, old(files), n)
    {
      ghost var before, skipped := projections, Skipped(env, files);
      SkippedAreUpToDate(env, files, projections, world);
      var candidates, clean := ChooseFiles(env, world);
      assert Skipped(env, files) == skipped;
      CandidatesAreListed(env, candidates, files);
      listed := MaterializeAll(env, candidates, world);
      complete := env.listing.complete && !env.initialErr && clean && listed == candidates.Keys;
      DropUnseen(env, world);
      if complete {
        complete := env.last.Some? && env.last.value.complete && env.last.value.paths == env.listing.paths;
      }
      if complete {
        complete := Prune(env, listed, world);
      }
    }

    /** Sync, with the scan that it starts with. */
    method ScanAndSync(env: Env, ghost world: (Path, nat) -> Content) returns (result: Result)
      requires Coherent(files, projections, world) && Ascending(env.listing.paths) && InWorld(env.fs, world)
      modifies this
      ensures Coherent(files, projections, world) && projections == result.projections
      ensures var now := Found(env, old(projections));
              && UpToDateIn(now, old(projections), Skipped(now, old(files)))
              && result == Incremental(now, old(projections), Skipped(now, old(files)))
              && forall n :: n in env.failing ==> MarkedBest(now, files, n) == MarkedBest(now, old(files), n)
    {
      var listed, complete := Sync(Found(env, projections), world);
      result := Result(listed, complete, projections);
    }

    /** A run of syncs over a directory that changes in between. */
    method SyncAll(envs: seq<Env>, ghost world: (Path, nat) -> Content)
      returns (results: seq<Result>, ghost skips: seq<set<string>>)
      requires Coherent(files, projections, world) && SensibleRun(envs, world)
      modifies this
      ensures Coherent(files, projections, world)
      ensures |skips| == |envs| && SkipsUpToDate(envs, old(projections), skips)
      ensures results == Syncs(envs, old(projections), skips) && projections == After(results, old(projections))
      ensures results == Rescans(envs, old(projections))
              <==> forall i :: 0 <= i < |envs| ==> skips[i] * envs[i].failing == {}
    {
      results, skips := [], [];
      ghost var before := projections;
      for i := 0 to |envs|
        invariant Coherent(files, projections, world) && |skips| == i && |results| == i
        invariant SkipsUpToDate(envs[..i], before, skips)
        invariant results == Syncs(envs[..i], before, skips) && projections == After(results, before)
      {
        ghost var skipped := Skipped(Found(envs[i], projections), files);
        assert envs[..i + 1][..i] == envs[..i] && (skips + [skipped])[..i] == skips;
        var result := ScanAndSync(envs[i], world);
        results, skips := results + [result], skips + [skipped];
      }
      assert envs[..|envs|] == envs;
      RunRefines(envs, before, skips);
    }

    /** Two syncs with nothing changed in between: the second does what the first did. */
    method SyncTwice(env: Env, ghost world: (Path, nat) -> Content) returns (first: Result, second: Result)
      requires Coherent(files, projections, world) && Ascending(env.listing.paths) && InWorld(env.fs, world)
      modifies this
      ensures Coherent(files, projections, world)
      ensures second == first && projections == first.projections
      ensures var now := Found(env, old(projections));
              first == Incremental(now, old(projections), Skipped(now, old(files)))
    {
      ghost var before, known := projections, files;
      first := ScanAndSync(env, world);
      TheSecondDoesTheSame(env, before, known, files);
      second := ScanAndSync(env, world);
    }

    method DropUnseen(env: Env, ghost world: (Path, nat) -> Content)
      requires Coherent(files, projections, world)
      modifies this`files
      ensures Coherent(files, projections, world)
      ensures files == map p | p in old(files) && p in env.listing.paths :: old(files)[p]
    {
      files := map p | p in files && p in env.listing.paths :: files[p];
    }

    /** The pruning loop, entered only with full authority. */
    method Prune(env: Env, listed: set<string>, ghost world: (Path, nat) -> Content) returns (complete: bool)
      requires Authoritative(env) && listed == Wanted(env)
      requires env.visible <= projections.Keys && Coherent(files, projections, world)
      modifies this`projections
      ensures Coherent(files, projections, world)
      ensures projections == Pruned(env, old(projections))
      ensures complete <==> Stale(env, old(projections)) * env.unremovable == {}
    {
      complete := true;
      var left := env.visible;
      ghost var before, stale := projections, Stale(env, projections);
      while left != {}
        invariant left <= env.visible
        invariant projections == before - (stale - env.unremovable - left)
        invariant complete <==> (stale - left) * env.unremovable == {}
      {
        var n :| n in left;
        assert n in projections && projections[n] == before[n];
        assert stale - (left - {n}) == if n in stale then (stale - left) + {n} else stale - left;
        left := left - {n};
        if n in listed || projections[n].intent {
          continue;
        }
        if n in env.unremovable {
          assert n in (stale - left) * env.unremovable;
          complete := false;
          continue;
        }
        projections := projections - {n};
      }
      CoherentUnderChange(files, before, world, projections);
    }
  }

  lemma ChosenStill(env: Env, paths: seq<Path>, i: nat, candidates: map<string, Candidate>, files: map<Path, FileState>,
                    files': map<Path, FileState>)
    requires i < |paths| && Ascending(paths) && Chosen(env, paths[..i], candidates, files)
    requires files' == files || (paths[i] in files' && files' == files[paths[i] := files'[paths[i]]])
    ensures Chosen(env, paths[..i], candidates, files')
  {
    forall n ensures ChosenFor(env, paths[..i], n, candidates, files') {
      assert ChosenFor(env, paths[..i], n, candidates, files);
      var best := Best(env, paths[..i], n);
      if best.Some? {
        var j :| 0 <= j < i && paths[..i][j] == best.value;
        assert paths[j].rank < paths[i].rank;
      }
    }
  }
}
