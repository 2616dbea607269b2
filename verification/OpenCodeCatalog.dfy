/** The catalog of internal/opencode/catalog.go: projections are reconciled with a native server that
    may change between any two calls, and removed only when nothing casts doubt on what it listed. */
module OpenCodeCatalog {
  import opened Options

  datatype Session = Session(id: string, directory: string, body: string)

  datatype Part = Part(session: string, message: string, text: string)

  datatype Message = Message(id: string, session: string, parts: seq<Part>)

  /** A projection on disk: the native session and the messages it shows. */
  datatype Projection = Projection(session: Session, messages: seq<Message>)

  /** Every reply of the server during one sync, in whatever state it is when asked, and every failure:
      the two listings, what each session and its messages looked like when it was hydrated, how
      directories resolve, what the initial scan found, which projections others create meanwhile,
      and which cannot be written or removed. */
  datatype Env = Env(
    listed: Option<seq<Session>>, confirmed: Option<seq<Session>>,
    sessions: map<string, Session>, messages: map<string, seq<Message>>, canonical: map<string, string>,
    visible: set<string>, initialErr: bool, created: map<string, Projection>,
    unwritable: set<string>, unremovable: set<string>, cancelledAt: Option<nat>)

  function Resolve(env: Env, directory: string): Option<string> {
    if directory in env.canonical then Some(env.canonical[directory]) else None
  }

  /** A canonical directory is an absolute path, so it is not empty. */
  ghost predicate RealDirectories(env: Env) {
    forall d :: d in env.canonical ==> env.canonical[d] != ""
  }

  // ---------------------------------------------------------------- membership

  /** The well-formed sessions of a listing, the first of each id. */
  function Members(env: Env, sessions: seq<Session>): map<string, string> {
    if sessions == [] then map[]
    else
      var s := sessions[|sessions| - 1];
      var earlier, directory := Members(env, sessions[..|sessions| - 1]), Resolve(env, s.directory);
      if s.id == "" || directory.None? || s.id in earlier then earlier else earlier[s.id := directory.value]
  }

  /** A listing without a session that lacks an id or a directory, and without duplicates. */
  ghost predicate Clean(env: Env, sessions: seq<Session>) {
    && (forall i :: 0 <= i < |sessions| ==> sessions[i].id != "" && Resolve(env, sessions[i].directory).Some?)
    && (forall i, j :: 0 <= i < j < |sessions| ==> sessions[i].id != sessions[j].id)
  }

  lemma {:induction false} MembersAre(env: Env, sessions: seq<Session>)
    ensures forall id :: id in Members(env, sessions) ==>
              && id != ""
              && exists i ::
                   && 0 <= i < |sessions| && sessions[i].id == id
                   && Resolve(env, sessions[i].directory) == Some(Members(env, sessions)[id])
    ensures forall i :: 0 <= i < |sessions| && sessions[i].id != "" && Resolve(env, sessions[i].directory).Some? ==>
              sessions[i].id in Members(env, sessions)
  {
    if sessions != [] {
      MembersAre(env, sessions[..|sessions| - 1]);
    }
  }

  /** Of a clean listing the members are exactly its sessions, with their directories. */
  lemma CleanMembers(env: Env, sessions: seq<Session>, id: string)
    requires Clean(env, sessions)
    ensures id in Members(env, sessions) <==> exists i :: 0 <= i < |sessions| && sessions[i].id == id
    ensures forall i :: 0 <= i < |sessions| && sessions[i].id == id ==>
              Some(Members(env, sessions)[id]) == Resolve(env, sessions[i].directory)
  {}

  /** Adding one more session to a listing. */
  lemma OneMore(env: Env, sessions: seq<Session>, n: nat)
    requires n < |sessions|
    ensures Members(env, sessions[..n + 1]) ==
            if sessions[n].id == "" || Resolve(env, sessions[n].directory).None?
              || sessions[n].id in Members(env, sessions[..n])
            then Members(env, sessions[..n])
            else Members(env, sessions[..n])[sessions[n].id := Resolve(env, sessions[n].directory).value]
    ensures Clean(env, sessions[..n + 1]) <==>
              && Clean(env, sessions[..n]) && sessions[n].id != "" && Resolve(env, sessions[n].directory).Some?
              && sessions[n].id !in Members(env, sessions[..n])
  {
    var longer, shorter := sessions[..n + 1], sessions[..n];
    assert longer[..n] == shorter;
    MembersAre(env, shorter);
    forall i | 0 <= i < n ensures longer[i] == shorter[i] {}
  }

  method CatalogMembership(env: Env, sessions: seq<Session>) returns (membership: Option<map<string, string>>)
    ensures membership == if Clean(env, sessions) then Some(Members(env, sessions)) else None
  {
    var out: map<string, string> := map[];
    for i := 0 to |sessions|
      invariant Clean(env, sessions[..i]) && out == Members(env, sessions[..i])
    {
      var native := sessions[i];
      var directory := Resolve(env, native.directory);
      OneMore(env, sessions, i);
      if native.id == "" || directory.None? || native.id in out {
        assert !Clean(env, sessions[..i + 1]);
        assert !Clean(env, sessions) by { if Clean(env, sessions) { PrefixIsClean(env, sessions, i + 1); } }
        return None;
      }
      out := out[native.id := directory.value];
    }
    assert sessions[..|sessions|] == sessions;
    return Some(out);
  }

  lemma PrefixIsClean(env: Env, sessions: seq<Session>, n: nat)
    requires n <= |sessions| && Clean(env, sessions)
    ensures Clean(env, sessions[..n])
  {}

  // ---------------------------------------------------------------- comparing memberships

  /** Indexing a map with a missing key yields the empty directory. */
  function At(m: map<string, string>, id: string): string {
    if id in m then m[id] else ""
  }

  ghost predicate SameMembership(left: map<string, string>, right: map<string, string>) {
    |left| == |right| && forall id :: id in left ==> At(right, id) == left[id]
  }

  method EqualMembership(left: map<string, string>, right: map<string, string>) returns (equal: bool)
    ensures equal <==> SameMembership(left, right)
  {
    if |left| != |right| {
      return false;
    }
    var ids := left.Keys;
    while ids != {}
      invariant ids <= left.Keys
      invariant forall id :: id in left && id !in ids ==> At(right, id) == left[id]
    {
      var id :| id in ids;
      if At(right, id) != left[id] {
        return false;
      }
      ids := ids - {id};
    }
    return true;
  }

  lemma SameSize(a: set<string>, b: set<string>)
    requires a <= b && |a| == |b|
    ensures a == b
  {
    assert b == a + (b - a);
    assert |b - a| == 0;
    assert b - a == {};
  }

  /** Comparing with a map without empty directories is true equality. */
  lemma ComparingIsEquality(left: map<string, string>, right: map<string, string>)
    requires forall id :: id in left ==> left[id] != ""
    ensures SameMembership(left, right) <==> left == right
  {
    if SameMembership(left, right) {
      assert forall id :: id in left ==> id in right && left[id] == right[id];
      assert |left| == |left.Keys| && |right| == |right.Keys|;
      SameSize(left.Keys, right.Keys);
    }
  }

  /** Some id is not in the set. */
  lemma {:induction false} SomeOtherId(ids: set<string>) returns (id: string)
    ensures id !in ids && forall other :: other in ids ==> |other| < |id|
    decreases |ids|
  {
    id := "x";
    if ids != {} {
      var first :| first in ids;
      var longer := SomeOtherId(ids - {first});
      id := longer + first + "x";
      assert forall other :: other in ids ==> other == first || other in ids - {first};
    }
  }

  /** With an empty directory it is not: the comparison is equality against every other map exactly
      when the map compared has none. */
  lemma EqualityNeedsDirectories(left: map<string, string>)
    ensures (forall right :: SameMembership(left, right) ==> left == right)
            <==> (forall id :: id in left ==> left[id] != "")
  {
    if forall id :: id in left ==> left[id] != "" {
      forall right | SameMembership(left, right) ensures left == right { ComparingIsEquality(left, right); }
    } else {
      var id :| id in left && left[id] == "";
      var other := SomeOtherId(left.Keys);
      var right := (left - {id})[other := "y"];
      assert right.Keys == left.Keys - {id} + {other};
      assert |right| == |right.Keys| && |left| == |left.Keys| && |left.Keys - {id}| == |left.Keys| - 1;
      assert SameMembership(left, right) && other in right && other !in left;
    }
  }

  // ---------------------------------------------------------------- hydrating one session

  ghost predicate PartBelongs(part: Part, message: Message, id: string) {
    (part.session != "" ==> part.session == id) && (part.message != "" ==> part.message == message.id)
  }

  ghost predicate MessageBelongs(message: Message, id: string) {
    && message.id != "" && message.session == id
    && forall i :: 0 <= i < |message.parts| ==> PartBelongs(message.parts[i], message, id)
  }

  ghost predicate AllBelong(messages: seq<Message>, id: string) {
    forall i :: 0 <= i < |messages| ==> MessageBelongs(messages[i], id)
  }

  /** The server's replies are about this session in this directory, and it can be written. */
  ghost predicate Hydratable(env: Env, id: string, directory: string) {
    && id != "" && id in env.sessions && env.sessions[id].id == id
    && Resolve(env, directory).Some? && Resolve(env, env.sessions[id].directory) == Resolve(env, directory)
    && id in env.messages && AllBelong(env.messages[id], id)
    && id !in env.unwritable
  }

  ghost function Shown(env: Env, id: string): Projection {
    if id in env.sessions && id in env.messages && Resolve(env, env.sessions[id].directory).Some? then
      Projection(env.sessions[id].(directory := Resolve(env, env.sessions[id].directory).value), env.messages[id])
    else Projection(Session(id, "", ""), [])
  }

  // ---------------------------------------------------------------- what a sync comes to

  ghost function Hydrated(env: Env, sessions: seq<Session>): set<string> {
    set id | id in Members(env, sessions) && Hydratable(env, id, Members(env, sessions)[id])
  }

  ghost function WithHydrated(env: Env, ids: set<string>, before: map<string, Projection>): map<string, Projection> {
    map id | id in before.Keys + ids :: if id in ids then Shown(env, id) else before[id]
  }

  ghost predicate FullyHydrated(env: Env, sessions: seq<Session>) {
    Clean(env, sessions) && Hydrated(env, sessions) == Members(env, sessions).Keys
  }

  /** The initial scan, the first listing, every hydration and the confirming listing all succeeded,
      and both listings have the same sessions in the same directories. */
  ghost predicate Authoritative(env: Env) {
    && !env.initialErr && env.listed.Some? && FullyHydrated(env, env.listed.value)
    && env.confirmed.Some? && Clean(env, env.confirmed.value)
    && Members(env, env.confirmed.value) == Members(env, env.listed.value)
  }

  ghost function Stale(env: Env): set<string>
    requires env.listed.Some?
  {
    env.visible - Members(env, env.listed.value).Keys
  }

  ghost predicate NotCancelled(env: Env) {
    env.listed.Some? && env.cancelledAt.Some? ==> env.cancelledAt.value >= |env.listed.value|
  }

  /** The projections that a sync leaves. */
  ghost function Reconciled(env: Env, before: map<string, Projection>): map<string, Projection>
    requires env.listed.Some?
  {
    var hydrated := WithHydrated(env, Hydrated(env, env.listed.value), before + env.created);
    if Authoritative(env) then hydrated - (Stale(env) - env.unremovable) else hydrated
  }

  /** The initial scan finds what is there, all of it unless it fails; others create new projections. */
  ghost predicate Sensible(env: Env, before: map<string, Projection>) {
    && env.visible <= before.Keys && (!env.initialErr ==> env.visible == before.Keys)
    && env.created.Keys !! before.Keys && RealDirectories(env)
  }

  /** A projection disappears only if it existed before the first listing and was not in it, every
      listed session was hydrated, and the confirming listing had the same sessions and directories. */
  lemma PruningNeedsAuthority(env: Env, before: map<string, Projection>, n: string)
    requires Sensible(env, before) && env.listed.Some? && n in before + env.created && n !in Reconciled(env, before)
    ensures n in before && n in env.visible && !env.initialErr
    ensures forall i :: 0 <= i < |env.listed.value| ==>
              env.listed.value[i].id != n && env.listed.value[i].id in Hydrated(env, env.listed.value)
    ensures env.confirmed.Some? && Members(env, env.confirmed.value) == Members(env, env.listed.value)
  {
    MembersAre(env, env.listed.value);
  }

  /** A complete sync leaves exactly the sessions listed, each showing messages of its own, and those
      that others created meanwhile. */
  lemma CompleteSyncIsExact(env: Env, before: map<string, Projection>, n: string)
    requires Sensible(env, before) && Authoritative(env) && Stale(env) * env.unremovable == {}
    ensures n in Reconciled(env, before)
            <==> (exists i :: 0 <= i < |env.listed.value| && env.listed.value[i].id == n) || n in env.created
    ensures n in Members(env, env.listed.value) ==>
              && Reconciled(env, before)[n] == Shown(env, n) && Shown(env, n).session.id == n
              && Some(Shown(env, n).session.directory) == Resolve(env, Members(env, env.listed.value)[n])
              && AllBelong(Shown(env, n).messages, n)
  {
    CleanMembers(env, env.listed.value, n);
    assert n in Members(env, env.listed.value) <==> n in Hydrated(env, env.listed.value);
    forall x | x in Stale(env) ensures x !in env.unremovable { assert x !in Stale(env) * env.unremovable; }
    assert n in Reconciled(env, before) <==>
      (n in before || n in env.created || n in Members(env, env.listed.value)) && n !in Stale(env);
    assert n in env.created ==> n !in env.visible;
  }

  class Catalog {
    var projections: map<string, Projection>

    constructor (projections: map<string, Projection>)
      ensures this.projections == projections
    {
      this.projections := projections;
    }

    /** hydrateSession: check every message and part of the reply, then materialize it. */
    method HydrateSession(env: Env, id: string, directory: string) returns (ok: bool)
      modifies this
      ensures ok <==> Hydratable(env, id, directory)
      ensures projections == if ok then old(projections)[id := Shown(env, id)] else old(projections)
    {
      if id == "" || id !in env.sessions || env.sessions[id].id != id {
        return false;
      }
      var native := env.sessions[id];
      var scoped := Resolve(env, native.directory);
      if Resolve(env, directory).None? || scoped != Resolve(env, directory) || id !in env.messages {
        return false;
      }
      var messages := env.messages[id];
      for i := 0 to |messages|
        invariant forall k :: 0 <= k < i ==> MessageBelongs(messages[k], id)
        invariant projections == old(projections)
      {
        var belongs := CheckMessage(messages[i], id);
        if !belongs {
          return false;
        }
      }
      if id in env.unwritable {
        return false;
      }
      projections := projections[id := Projection(native.(directory := scoped.value), messages)];
      return true;
    }

    method CheckMessage(message: Message, id: string) returns (ok: bool)
      ensures ok <==> MessageBelongs(message, id)
    {
      if message.id == "" || message.session != id {
        return false;
      }
      for i := 0 to |message.parts|
        invariant forall k :: 0 <= k < i ==> PartBelongs(message.parts[k], message, id)
      {
        var part := message.parts[i];
        if part.session != "" && part.session != id {
          return false;
        }
        if part.message != "" && part.message != message.id {
          return false;
        }
      }
      return true;
    }

    /** The first loop of a sync, over the listing. */
    method HydrateListed(env: Env, sessions: seq<Session>)
      returns (membership: map<string, string>, ids: set<string>, clean: bool, stopped: bool)
      modifies this
      ensures stopped <==> env.cancelledAt.Some? && env.cancelledAt.value < |sessions|
      ensures projections.Keys >= old(projections).Keys
      ensures !stopped ==>
                && membership == Members(env, sessions) && ids == Hydrated(env, sessions)
                && (clean <==> FullyHydrated(env, sessions))
                && projections == WithHydrated(env, ids, old(projections))
    {
      membership, ids, clean := map[], {}, true;
      assert sessions[..0] == [] && WithHydrated(env, {}, projections) == projections;
      for i := 0 to |sessions|
        invariant membership == Members(env, sessions[..i]) && ids == Hydrated(env, sessions[..i])
        invariant clean <==> FullyHydrated(env, sessions[..i])
        invariant projections == WithHydrated(env, ids, old(projections))
        invariant env.cancelledAt.Some? ==> i <= env.cancelledAt.value
      {
        if env.cancelledAt == Some(i) {
          return membership, ids, false, true;
        }
        var summary := sessions[i];
        var directory := Resolve(env, summary.directory);
        OneMoreHydrated(env, sessions, i);
        if summary.id == "" || directory.None? || summary.id in membership {
          clean := false;
          continue;
        }
        membership := membership[summary.id := directory.value];
        var ok := HydrateSession(env, summary.id, directory.value);
        if ok {
          ShowOneMore(env, ids, old(projections), summary.id);
          ids := ids + {summary.id};
        } else {
          clean := false;
        }
      }
      assert sessions[..|sessions|] == sessions;
      return membership, ids, clean, false;
    }

    /** The last loop: remove what the scan had found and the listing did not mention. */
    method Prune(env: Env, membership: map<string, string>) returns (complete: bool)
      modifies this
      ensures projections == old(projections) - (env.visible - membership.Keys - env.unremovable)
      ensures complete <==> (env.visible - membership.Keys) * env.unremovable == {}
    {
      complete := true;
      var left := env.visible;
      ghost var stale, before := env.visible - membership.Keys, projections;
      while left != {}
        invariant left <= env.visible
        invariant projections == before - (stale - env.unremovable - left)
        invariant complete <==> (stale - left) * env.unremovable == {}
      {
        var n :| n in left;
        assert stale - (left - {n}) == if n in stale then (stale - left) + {n} else stale - left;
        left := left - {n};
        if n in membership {
          continue;
        }
        if n in env.unremovable {
          assert n in (stale - left) * env.unremovable;
          complete := false;
          continue;
        }
        projections := projections - {n};
      }
    }

    /** SyncWithClient. The ids returned are those of the hydrated sessions. */
    method SyncWithClient(env: Env) returns (ids: set<string>, complete: bool)
      requires Sensible(env, projections)
      modifies this
      ensures env.listed.None? ==> !complete && projections == old(projections) + env.created
      ensures !NotCancelled(env) ==> !complete && ids == {} && projections.Keys >= old(projections).Keys
      ensures env.listed.Some? && NotCancelled(env) ==>
                && projections == Reconciled(env, old(projections)) && ids == Hydrated(env, env.listed.value)
                && (complete <==> Authoritative(env) && Stale(env) * env.unremovable == {})
    {
      projections := projections + env.created;
      if env.listed.None? {
        return {}, false;
      }
      var membership, hydrated, clean, stopped := HydrateListed(env, env.listed.value);
      if stopped {
        return {}, false;
      }
      ids, complete := hydrated, clean && !env.initialErr;
      MembersAre(env, env.listed.value);
      if complete {
        complete := Confirm(env, membership);
      }
      if complete {
        complete := Prune(env, membership);
      }
    }

    method Confirm(env: Env, membership: map<string, string>) returns (agrees: bool)
      requires forall id :: id in membership ==> membership[id] != ""
      ensures agrees <==>
              && env.confirmed.Some? && Clean(env, env.confirmed.value)
              && Members(env, env.confirmed.value) == membership
    {
      if env.confirmed.None? {
        return false;
      }
      var confirmed := CatalogMembership(env, env.confirmed.value);
      if confirmed.None? {
        return false;
      }
      ComparingIsEquality(membership, confirmed.value);
      agrees := EqualMembership(membership, confirmed.value);
    }
  }

  lemma ShowOneMore(env: Env, ids: set<string>, before: map<string, Projection>, id: string)
    ensures WithHydrated(env, ids + {id}, before) == WithHydrated(env, ids, before)[id := Shown(env, id)]
  {}

  lemma OneMoreHydrated(env: Env, sessions: seq<Session>, n: nat)
    requires n < |sessions|
    ensures var s, earlier, longer := sessions[n], sessions[..n], sessions[..n + 1];
            if s.id == "" || Resolve(env, s.directory).None? || s.id in Members(env, earlier) then
              && Members(env, longer) == Members(env, earlier) && Hydrated(env, longer) == Hydrated(env, earlier)
              && !FullyHydrated(env, longer)
            else
              var directory := Resolve(env, s.directory).value;
              && Members(env, longer) == Members(env, earlier)[s.id := directory]
              && Hydrated(env, longer) ==
              Hydrated(env, earlier) + (if Hydratable(env, s.id, directory) then {s.id} else {})
              && (FullyHydrated(env, longer) <==> FullyHydrated(env, earlier) && Hydratable(env, s.id, directory))
  {
    OneMore(env, sessions, n);
    var s, earlier, longer := sessions[n], sessions[..n], sessions[..n + 1];
    if !(s.id == "" || Resolve(env, s.directory).None? || s.id in Members(env, earlier)) {
      var directory := Resolve(env, s.directory).value;
      assert Members(env, longer).Keys == Members(env, earlier).Keys + {s.id};
      assert Hydrated(env, longer) ==
             Hydrated(env, earlier) + (if Hydratable(env, s.id, directory) then {s.id} else {});
      assert s.id !in Hydrated(env, earlier);
    }
  }
}
