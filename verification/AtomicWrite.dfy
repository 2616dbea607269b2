/** WriteJSONLAtomic of internal/projections/store.go: a durable replacement of a file that is
    skipped, relying on cached fingerprints, exactly when the file already holds the entries. */
module AtomicWrite {
  import opened Options
  import opened FingerprintCache

  // ---------------------------------------------------------------- files and their stamps

  datatype Identity = Identity(size: nat, modTime: nat, inode: nat)

  /** What stat tells about a file; not every platform has a change stamp. */
  datatype Stat = Stat(id: Identity, changed: Option<nat>)

  datatype File = File(stat: Stat, content: string)

  type FileSystem = map<string, File>

  /** An injective content hash. */
  datatype Hash = Sha256(content: string)

  datatype Fingerprint = Fingerprint(id: Identity, changed: nat, hash: Hash)

  predicate Matches(fingerprint: Fingerprint, stat: Stat) {
    fingerprint.id == stat.id && stat.changed == Some(fingerprint.changed)
  }

  predicate SameSnapshot(before: Stat, after: Stat) {
    before.id == after.id && (before.changed.None? || after.changed.None? || before.changed == after.changed)
  }

  predicate SameVersion(before: Stat, after: Stat) {
    SameSnapshot(before, after) && before.changed.Some? && after.changed.Some? && before.changed == after.changed
  }

  /** A file's size is the length of its content, and a change stamp determines the content:
      `world` says what was stored under each. */
  ghost predicate InWorld(fs: FileSystem, world: (Identity, nat) -> string) {
    forall path :: path in fs ==> Truthful(fs[path], world)
  }

  ghost predicate Truthful(file: File, world: (Identity, nat) -> string) {
    && |file.content| == file.stat.id.size
    && (file.stat.changed.Some? ==> file.content == world(file.stat.id, file.stat.changed.value))
  }

  ghost predicate HoldsAt(fs: FileSystem, path: string, content: string) {
    path in fs && fs[path].content == content
  }

  // ---------------------------------------------------------------- the encoding

  /** A value that JSON can encode, on one line, or cannot. */
  datatype Value = Unencodable | Encodable(line: string)

  ghost predicate OnOneLine(values: seq<Value>) {
    forall i :: 0 <= i < |values| ==> values[i].Encodable? && '\n' !in values[i].line
  }

  function Encoded(values: seq<Value>): string {
    if values == [] then ""
    else (if values[0].Encodable? then values[0].line else "") + "\n" + Encoded(values[1..])
  }

  function FirstLine(text: string): (r: string)
    ensures r <= text && '\n' !in r
  {
    if text == "" || text[0] == '\n' then "" else [text[0]] + FirstLine(text[1..])
  }

  function Lines(text: string): seq<string>
    decreases |text|
  {
    if text == "" then []
    else
      var line := FirstLine(text);
      [line] + if |line| < |text| then Lines(text[|line| + 1..]) else []
  }

  lemma {:induction false} FirstLineIs(line: string, rest: string)
    requires '\n' !in line
    ensures FirstLine(line + "\n" + rest) == line
  {
    var text := line + "\n" + rest;
    if line != "" {
      assert text[1..] == line[1..] + "\n" + rest;
      FirstLineIs(line[1..], rest);
    }
  }

  /** Reading the lines of an encoded file gives back the values. */
  lemma {:induction false} LinesOfEncoded(values: seq<Value>)
    requires OnOneLine(values)
    ensures |Lines(Encoded(values))| == |values|
    ensures forall i :: 0 <= i < |values| ==> Lines(Encoded(values))[i] == values[i].line
  {
    if values != [] {
      var line, rest := values[0].line, Encoded(values[1..]);
      LinesOfEncoded(values[1..]);
      FirstLineIs(line, rest);
      assert (line + "\n" + rest)[|line| + 1..] == rest;
    }
  }

  // ---------------------------------------------------------------- what happens around one write

  /** What other programs do to the file system between two moments. */
  datatype Changes = Changes(written: FileSystem, removed: set<string>)

  function Disturbed(fs: FileSystem, changes: Changes): FileSystem {
    fs - changes.removed + changes.written
  }

  ghost predicate Spares(changes: Changes, path: string) {
    path !in changes.written && path !in changes.removed
  }

  /** What happens before each moment the write looks at the file system, the stamps of the file it
      creates, and the calls that fail. */
  datatype Env = Env(
    reading: Changes, checking: Changes, renaming: Changes, created: Stat, renamed: Stat, restat: Changes,
    final: Changes,
    statFails: bool, readFails: bool, checkFails: bool, writeFails: bool, renameFails: bool, syncFails: bool)

  ghost function WhenRead(env: Env, before: FileSystem): FileSystem {
    Disturbed(before, env.reading)
  }

  ghost function WhenChecked(env: Env, before: FileSystem): FileSystem {
    Disturbed(WhenRead(env, before), env.checking)
  }

  /** What the stamps mean: nobody wrote to a file whose stamps agree before and after it was read,
      and a file with the identity of the one just written holds what was written. */
  ghost predicate Faithful(env: Env, before: FileSystem, path: string, content: string,
                           world: (Identity, nat) -> string) {
    && InWorld(before, world) && StampsTold(env, path, content, world)
    && (path in before && path in WhenRead(env, before) && path in WhenChecked(env, before)
        && SameSnapshot(before[path].stat, WhenChecked(env, before)[path].stat)
        && WhenChecked(env, before)[path].stat.changed.Some? ==>
          WhenRead(env, before)[path].content == WhenChecked(env, before)[path].content)
  }

  ghost predicate StampsTold(env: Env, path: string, content: string, world: (Identity, nat) -> string) {
    && InWorld(env.reading.written, world) && InWorld(env.checking.written, world)
    && InWorld(env.renaming.written, world)
    && InWorld(env.restat.written, world) && InWorld(env.final.written, world)
    && Truthful(File(env.renamed, content), world)
    && (path in env.restat.written && env.restat.written[path].stat.id == env.created.id ==>
          env.restat.written[path].content == content)
  }

  /** No other program touches the file system meanwhile. */
  ghost predicate Quiet(env: Env) {
    env.reading == env.checking == env.renaming == env.restat == env.final == Changes(map[], {})
  }

  /** Every cached hash is that of what its stamp stands for. */
  ghost predicate Coherent(list: seq<Entry<Fingerprint>>, world: (Identity, nat) -> string) {
    forall i :: 0 <= i < |list| ==> CoherentEntry(list[i].fingerprint, world)
  }

  ghost predicate CoherentEntry(f: Fingerprint, world: (Identity, nat) -> string) {
    f.hash == Sha256(world(f.id, f.changed))
  }

  lemma CoherenceIsKept(list: seq<Entry<Fingerprint>>, op: Op<Fingerprint>, cap: nat, world: (Identity, nat) -> string)
    requires Coherent(list, world) && (op.Put? ==> CoherentEntry(op.fingerprint, world))
    ensures Coherent(Apply(list, op, cap), world)
  {}

  /** A fingerprint that matches a file's stamps tells what it holds. */
  lemma CachedTells(fingerprint: Fingerprint, file: File, data: string, world: (Identity, nat) -> string)
    requires CoherentEntry(fingerprint, world) && Matches(fingerprint, file.stat) && Truthful(file, world)
    ensures fingerprint.hash == Sha256(data) <==> file.content == data
  {}

  function Storing(path: string, stat: Stat, content: string): Op<Fingerprint>
    requires stat.changed.Some?
  {
    Op.Put(path, Fingerprint(stat.id, stat.changed.value, Sha256(content)))
  }

  /** The cache after the file was read: its hash is stored if the stamps before and after agree and
      there is a change stamp. */
  ghost function AfterReading(list: seq<Entry<Fingerprint>>, path: string, info: Stat, read: FileSystem,
                              checked: FileSystem, env: Env)
    : seq<Entry<Fingerprint>>
  {
    if env.readFails || path !in read || env.checkFails || path !in checked then list
    else
      var after := checked[path].stat;
      if SameSnapshot(info, after) && after.changed.Some?
      then Apply(list, Storing(path, after, read[path].content), MaxProjectionFingerprints) else list
  }

  ghost function AfterSizing(list: seq<Entry<Fingerprint>>, path: string, fs: FileSystem, size: nat, env: Env)
    : seq<Entry<Fingerprint>>
    requires path in fs
  {
    if fs[path].stat.id.size != size then list
    else AfterReading(list, path, fs[path].stat, WhenRead(env, fs), WhenChecked(env, fs), env)
  }

  /** The cache after a file that is there was judged: a known one is used, and one of the right size
      that is not known by its stamps is read. */
  ghost function AfterJudging(list: seq<Entry<Fingerprint>>, path: string, fs: FileSystem, size: nat, env: Env)
    : seq<Entry<Fingerprint>>
    requires path in fs
  {
    var found, got := Lookup(list, path), Apply(list, Op.Get(path), MaxProjectionFingerprints);
    if found.Some? && Matches(found.value, fs[path].stat) then got else AfterSizing(got, path, fs, size, env)
  }

  /** The cache after the file was looked at: a missing file is forgotten. */
  ghost function AfterLooking(list: seq<Entry<Fingerprint>>, path: string, fs: FileSystem, size: nat, env: Env)
    : seq<Entry<Fingerprint>>
  {
    if env.statFails then list
    else if path !in fs then Apply(list, Op.Forget(path), MaxProjectionFingerprints)
    else AfterJudging(list, path, fs, size, env)
  }

  /** The cache after the write: its fingerprint is stored if what is found at its place is still the
      file created, with the change stamp it had after the rename, and forgotten otherwise. */
  ghost function AfterWriting(list: seq<Entry<Fingerprint>>, path: string, data: string, renamed: Stat, fs: FileSystem,
                              env: Env)
    : seq<Entry<Fingerprint>>
  {
    if path in fs && env.created.id == renamed.id && SameVersion(renamed, fs[path].stat)
    then Apply(list, Storing(path, fs[path].stat, data), MaxProjectionFingerprints)
    else Apply(list, Op.Forget(path), MaxProjectionFingerprints)
  }

  class Writer {
    var fs: FileSystem
    const cache: Cache<Fingerprint>

    constructor (fs: FileSystem)
      ensures this.fs == fs && cache.Valid() && cache.Recency() == []
    {
      this.fs := fs;
      cache := new Cache();
    }

    ghost predicate Valid(world: (Identity, nat) -> string)
      reads cache, cache.order
    {
      cache.Valid() && Coherent(cache.Recency(), world)
    }

    method Remember(path: string, fingerprint: Fingerprint, ghost world: (Identity, nat) -> string)
      requires Valid(world) && CoherentEntry(fingerprint, world)
      modifies cache, cache.order
      ensures Valid(world) && forall e :: e in cache.order ==> e in old(cache.order) || fresh(e)
      ensures cache.Recency() == Apply(old(cache.Recency()), Op.Put(path, fingerprint), MaxProjectionFingerprints)
    {
      CoherenceIsKept(cache.Recency(), Op.Put(path, fingerprint), MaxProjectionFingerprints, world);
      cache.Put(path, fingerprint);
    }

    method Forget(path: string, ghost world: (Identity, nat) -> string)
      requires Valid(world)
      modifies cache
      ensures Valid(world) && forall e :: e in cache.order ==> e in old(cache.order) || fresh(e)
      ensures cache.Recency() == Apply(old(cache.Recency()), Op.Forget(path), MaxProjectionFingerprints)
    {
      CoherenceIsKept(cache.Recency(), Op.Forget(path), MaxProjectionFingerprints, world);
      cache.Forget(path);
    }

    method Recall(path: string, ghost world: (Identity, nat) -> string) returns (found: Option<Fingerprint>)
      requires Valid(world)
      modifies cache
      ensures Valid(world) && forall e :: e in cache.order ==> e in old(cache.order) || fresh(e)
      ensures found == Lookup(old(cache.Recency()), path) && (found.Some? ==> CoherentEntry(found.value, world))
      ensures cache.Recency() == Apply(old(cache.Recency()), Op.Get(path), MaxProjectionFingerprints)
    {
      CoherenceIsKept(cache.Recency(), Op.Get(path), MaxProjectionFingerprints, world);
      found := cache.Get(path);
    }

    /** Other programs do something. */
    method OthersChange(changes: Changes, ghost world: (Identity, nat) -> string)
      requires InWorld(fs, world) && InWorld(changes.written, world)
      modifies this`fs
      ensures fs == Disturbed(old(fs), changes) && InWorld(fs, world)
      ensures changes == Changes(map[], {}) ==> fs == old(fs)
    {
      fs := Disturbed(fs, changes);
    }

    /** Whether the file already holds `data`; None if it cannot be told. */
    method ProjectionUnchanged(path: string, data: string, env: Env, ghost world: (Identity, nat) -> string)
      returns (same: Option<bool>)
      requires Valid(world) && Faithful(env, fs, path, data, world)
      modifies this`fs, cache, cache.order
      ensures Valid(world) && forall e :: e in cache.order ==> e in old(cache.order) || fresh(e)
      ensures InWorld(fs, world) && (Quiet(env) ==> fs == old(fs))
      ensures same == Some(true) ==> HoldsAt(old(fs), path, data) || HoldsAt(WhenRead(env, old(fs)), path, data)
      ensures Quiet(env) && same.Some? ==> same.value == HoldsAt(fs, path, data)
      ensures cache.Recency() == AfterLooking(old(cache.Recency()), path, old(fs), |data|, env)
    {
      if env.statFails {
        return None;
      }
      if path !in fs {
        Forget(path, world);
        return Some(false);
      }
      same := Judge(path, data, env, world);
    }

    /** Judge a file that is there: by its cached fingerprint, by its size, or by reading it. */
    method Judge(path: string, data: string, env: Env, ghost world: (Identity, nat) -> string)
      returns (same: Option<bool>)
      requires Valid(world) && Faithful(env, fs, path, data, world) && path in fs
      modifies this`fs, cache, cache.order
      ensures Valid(world) && forall e :: e in cache.order ==> e in old(cache.order) || fresh(e)
      ensures InWorld(fs, world) && (Quiet(env) ==> fs == old(fs))
      ensures same == Some(true) ==> HoldsAt(old(fs), path, data) || HoldsAt(WhenRead(env, old(fs)), path, data)
      ensures Quiet(env) && same.Some? ==> same.value == HoldsAt(fs, path, data)
      ensures cache.Recency() == AfterJudging(old(cache.Recency()), path, old(fs), |data|, env)
    {
      var info := fs[path].stat;
      assert Truthful(fs[path], world);
      var cached := Recall(path, world);
      if cached.Some? && Matches(cached.value, info) {
        CachedTells(cached.value, fs[path], data, world);
        return Some(cached.value.hash == Sha256(data));
      }
      same := JudgeUnknown(path, data, env, world);
    }

    method JudgeUnknown(path: string, data: string, env: Env, ghost world: (Identity, nat) -> string)
      returns (same: Option<bool>)
      requires Valid(world) && Faithful(env, fs, path, data, world) && path in fs
      modifies this`fs, cache, cache.order
      ensures Valid(world) && forall e :: e in cache.order ==> e in old(cache.order) || fresh(e)
      ensures InWorld(fs, world) && (Quiet(env) ==> fs == old(fs))
      ensures same == Some(true) ==> HoldsAt(WhenRead(env, old(fs)), path, data)
      ensures Quiet(env) && same.Some? ==> same.value == HoldsAt(fs, path, data)
      ensures cache.Recency() == AfterSizing(old(cache.Recency()), path, old(fs), |data|, env)
    {
      var info := fs[path].stat;
      assert Truthful(fs[path], world);
      if info.id.size != |data| {
        return Some(false);
      }
      same := Compare(path, info, data, env, world);
    }

    /** Read the file, and remember its hash if its stamps say that it stayed as it was. */
    method Compare(path: string, info: Stat, data: string, env: Env, ghost world: (Identity, nat) -> string)
      returns (same: Option<bool>)
      requires Valid(world) && Faithful(env, fs, path, data, world) && path in fs && fs[path].stat == info
      modifies this`fs, cache, cache.order
      ensures Valid(world) && forall e :: e in cache.order ==> e in old(cache.order) || fresh(e)
      ensures InWorld(fs, world) && (Quiet(env) ==> fs == old(fs))
      ensures same == Some(true) ==> HoldsAt(WhenRead(env, old(fs)), path, data)
      ensures Quiet(env) && same.Some? ==> same.value == HoldsAt(fs, path, data)
      ensures cache.Recency() ==
              AfterReading(old(cache.Recency()), path, info, WhenRead(env, old(fs)), WhenChecked(env, old(fs)), env)
    {
      OthersChange(env.reading, world);
      if env.readFails || path !in fs {
        return None;
      }
      var content := fs[path].content;
      OthersChange(env.checking, world);
      if env.checkFails || path !in fs {
        return None;
      }
      var after := fs[path].stat;
      if !SameSnapshot(info, after) {
        return Some(false);
      }
      assert Truthful(fs[path], world);
      if after.changed.Some? {
        Remember(path, Fingerprint(after.id, after.changed.value, Sha256(content)), world);
      }
      return Some(Sha256(content) == Sha256(data));
    }

    /** Remember what was just written, if the file found at its place is still that one. */
    method CacheFingerprint(path: string, data: string, renamed: Stat, env: Env, ghost world: (Identity, nat) -> string)
      requires Valid(world)
      requires renamed.id == env.created.id ==> Truthful(File(renamed, data), world)
      requires InWorld(fs, world) && InWorld(env.final.written, world)
      modifies this`fs, cache, cache.order
      ensures Valid(world) && fs == Disturbed(old(fs), env.final)
      ensures cache.Recency() == AfterWriting(old(cache.Recency()), path, data, renamed, fs, env)
    {
      OthersChange(env.final, world);
      if path !in fs || env.created.id != renamed.id || !SameVersion(renamed, fs[path].stat) {
        Forget(path, world);
        return;
      }
      var info := fs[path].stat;
      Remember(path, Fingerprint(info.id, info.changed.value, Sha256(data)), world);
    }

    /** Whether it writes or skips, the file ends up holding exactly the encoded values; it skips
        exactly when the file held them already; and a failure leaves the old file or the new one. */
    method WriteJSONLAtomic(path: string, values: seq<Value>, env: Env, ghost world: (Identity, nat) -> string)
      returns (ok: bool, wrote: bool)
      requires Valid(world) && Faithful(env, fs, path, Encoded(values), world)
      modifies this`fs, cache, cache.order
      ensures Valid(world)
      ensures ok ==> forall i :: 0 <= i < |values| ==> values[i].Encodable?
      ensures ok && !wrote ==>
                HoldsAt(old(fs), path, Encoded(values)) || HoldsAt(WhenRead(env, old(fs)), path, Encoded(values))
      ensures ok && wrote && Spares(env.restat, path) && Spares(env.final, path) ==> HoldsAt(fs, path, Encoded(values))
      ensures Quiet(env) ==>
                && (ok ==> HoldsAt(fs, path, Encoded(values)) && (wrote <==> !HoldsAt(old(fs), path, Encoded(values))))
                && fs == if wrote then old(fs)[path := File(env.renamed, Encoded(values))] else old(fs)
    {
      if exists i :: 0 <= i < |values| && values[i].Unencodable? {
        return false, false;
      }
      var data := Encoded(values);
      ok, wrote := WriteAtomic(path, data, env, world);
    }

    method WriteAtomic(path: string, data: string, env: Env, ghost world: (Identity, nat) -> string)
      returns (ok: bool, wrote: bool)
      requires Valid(world) && Faithful(env, fs, path, data, world)
      modifies this`fs, cache, cache.order
      ensures Valid(world)
      ensures ok && !wrote ==> HoldsAt(old(fs), path, data) || HoldsAt(WhenRead(env, old(fs)), path, data)
      ensures ok && wrote && Spares(env.restat, path) && Spares(env.final, path) ==> HoldsAt(fs, path, data)
      ensures Quiet(env) ==>
                && (ok ==> HoldsAt(fs, path, data) && (wrote <==> !HoldsAt(old(fs), path, data)))
                && fs == if wrote then old(fs)[path := File(env.renamed, data)] else old(fs)
    {
      var same := ProjectionUnchanged(path, data, env, world);
      if same.None? {
        return false, false;
      }
      if same.value {
        return true, false;
      }
      ok, wrote := Commit(path, data, env, world);
    }

    /** Write a temporary file, rename it over the old one and make the rename durable. */
    method Commit(path: string, data: string, env: Env, ghost world: (Identity, nat) -> string)
      returns (ok: bool, wrote: bool)
      requires Valid(world) && InWorld(fs, world) && StampsTold(env, path, data, world)
      modifies this`fs, cache, cache.order
      ensures Valid(world) && (ok ==> wrote)
      ensures wrote && Spares(env.restat, path) && Spares(env.final, path) ==> HoldsAt(fs, path, data)
      ensures Quiet(env) ==> fs == if wrote then old(fs)[path := File(env.renamed, data)] else old(fs)
    {
      OthersChange(env.renaming, world);
      if env.writeFails || env.renameFails {
        return false, false;
      }
      fs := fs[path := File(env.renamed, data)];
      OthersChange(env.restat, world);
      if path !in fs || env.syncFails {
        return false, true;
      }
      assert Truthful(fs[path], world);
      CacheFingerprint(path, data, fs[path].stat, env, world);
      return true, true;
    }
  }
}
