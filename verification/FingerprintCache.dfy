/** The fingerprint cache of internal/projections/store.go: a map and a linked list that together
    implement a recency list. */
module FingerprintCache {
  import opened Options

  const MaxProjectionFingerprints: nat := 8192

  // ---------------------------------------------------------------- the recency list

  datatype Entry<F> = Entry(path: string, fingerprint: F)

  /** Where a path stands in the list; past its end if it does not. */
  function Position<F>(list: seq<Entry<F>>, path: string): (k: nat)
    ensures k <= |list| && (k < |list| ==> list[k].path == path)
    ensures forall i :: 0 <= i < k ==> list[i].path != path
  {
    if list == [] || list[0].path == path then 0 else 1 + Position(list[1..], path)
  }

  function Without<F>(list: seq<Entry<F>>, path: string): seq<Entry<F>> {
    var k := Position(list, path);
    if k < |list| then list[..k] + list[k + 1..] else list
  }

  function Lookup<F>(list: seq<Entry<F>>, path: string): Option<F> {
    var k := Position(list, path);
    if k < |list| then Some(list[k].fingerprint) else None
  }

  datatype Op<F> = Get(path: string) | Put(path: string, fingerprint: F) | Forget(path: string)

  /** The three operations on a list that holds at most `cap` entries, the most recent first. */
  function Apply<F>(list: seq<Entry<F>>, op: Op<F>, cap: nat): seq<Entry<F>> {
    match op
    case Get(path) =>
      var found := Lookup(list, path);
      if found.None? then list else [Entry(path, found.value)] + Without(list, path)
    case Put(path, fingerprint) =>
      var longer := [Entry(path, fingerprint)] + Without(list, path);
      if |longer| <= cap then longer else longer[..cap]
    case Forget(path) => Without(list, path)
  }

  function After<F>(history: seq<Op<F>>, cap: nat): seq<Entry<F>> {
    if history == [] then []
    else Apply(After(history[..|history| - 1], cap), history[|history| - 1], cap)
  }

  /** When a path was last asked for or stored; 0 if never. */
  function LastUse<F>(history: seq<Op<F>>, path: string): (r: nat)
    ensures r <= |history|
  {
    if history == [] then 0
    else
      var op := history[|history| - 1];
      if !op.Forget? && op.path == path then |history| else LastUse(history[..|history| - 1], path)
  }

  /** The fingerprint a path was last stored with, unless it was forgotten since. */
  function LastPut<F>(history: seq<Op<F>>, path: string): Option<F> {
    if history == [] then None
    else
      var op := history[|history| - 1];
      if op.path == path && !op.Get? then (if op.Put? then Some(op.fingerprint) else None)
      else LastPut(history[..|history| - 1], path)
  }

  /** The paths used after the last use of this one. */
  function UsedSince<F>(history: seq<Op<F>>, path: string): set<string> {
    if history == [] then {}
    else
      var op, earlier := history[|history| - 1], UsedSince(history[..|history| - 1], path);
      if op.Forget? then earlier else if op.path == path then {} else earlier + {op.path}
  }

  ghost predicate Distinct<F>(list: seq<Entry<F>>) {
    forall i, j :: 0 <= i < j < |list| ==> list[i].path != list[j].path
  }

  /** The first path was used more recently than the second. */
  ghost predicate Newer<F>(history: seq<Op<F>>, first: string, second: string) {
    && first != second && LastUse(history, first) > LastUse(history, second)
    && first in UsedSince(history, second)
  }

  /** The cached paths are ordered by their last use, and each shows what it was last stored with. */
  ghost predicate IsRecencyList<F>(list: seq<Entry<F>>, history: seq<Op<F>>) {
    && (forall i, j :: 0 <= i < j < |list| ==> Newer(history, list[i].path, list[j].path))
    && (forall i :: 0 <= i < |list| ==> LastPut(history, list[i].path) == Some(list[i].fingerprint))
  }

  ghost predicate Cached<F>(list: seq<Entry<F>>, path: string) {
    exists i :: 0 <= i < |list| && list[i].path == path
  }

  /** Removing an element keeps the order of the others. */
  lemma RemovalKeepsOrder<F>(list: seq<Entry<F>>, path: string, history: seq<Op<F>>)
    requires IsRecencyList(list, history)
    ensures IsRecencyList(Without(list, path), history)
    ensures !Cached(Without(list, path), path)
  {
    var k, rest := Position(list, path), Without(list, path);
    assert |rest| <= |list|;
    forall i | 0 <= i < |rest| ensures rest[i] == list[if i < k then i else i + 1] && rest[i].path != path {
      if k < i + 1 <= |list| - 1 { assert Newer(history, list[k].path, list[i + 1].path); }
    }
    forall i, j | 0 <= i < j < |rest| ensures Newer(history, rest[i].path, rest[j].path) {}
  }

  /** A use of one path affects nothing that is recorded about the others, except that it is more recent. */
  lemma StepKeepsOrder<F>(list: seq<Entry<F>>, history: seq<Op<F>>, op: Op<F>)
    requires IsRecencyList(list, history) && !Cached(list, op.path)
    ensures IsRecencyList(list, history + [op])
    ensures !op.Forget? && (op.Get? ==> LastPut(history, op.path).Some?) ==>
              IsRecencyList([Entry(op.path, LastPut(history + [op], op.path).value)] + list, history + [op])
  {}

  lemma PrefixKeepsOrder<F>(list: seq<Entry<F>>, n: nat, history: seq<Op<F>>)
    requires IsRecencyList(list, history) && n <= |list|
    ensures IsRecencyList(list[..n], history)
  {}

  lemma UnusedGet<F>(list: seq<Entry<F>>, history: seq<Op<F>>, path: string)
    requires IsRecencyList(list, history)
    requires Lookup(list, path).None?
    ensures IsRecencyList(list, history + [Get(path)])
  {}

  /** After every history the cache is the list of the most recently used paths, within its cap. */
  lemma {:induction false} CacheIsRecencyList<F>(history: seq<Op<F>>, cap: nat)
    requires cap > 0
    ensures |After(history, cap)| <= cap && IsRecencyList(After(history, cap), history)
  {
    if history != [] {
      var earlier, op := history[..|history| - 1], history[|history| - 1];
      var list := After(earlier, cap);
      CacheIsRecencyList(earlier, cap);
      assert earlier + [op] == history;
      if op.Get? && Lookup(list, op.path).None? {
        UnusedGet(list, earlier, op.path);
      } else {
        RemovalKeepsOrder(list, op.path, earlier);
        StepKeepsOrder(Without(list, op.path), earlier, op);
        if op.Put? {
          var longer := [Entry(op.path, op.fingerprint)] + Without(list, op.path);
          PrefixKeepsOrder(longer, if |longer| <= cap then |longer| else cap, history);
        }
      }
    }
  }

  /** The one way to be evicted: be last in a full cache when a new path is stored. */
  ghost predicate Evicts<F>(list: seq<Entry<F>>, op: Op<F>, cap: nat, path: string) {
    op.Put? && !Cached(list, op.path) && |list| == cap > 0 && list[cap - 1].path == path
  }

  lemma EveryOtherStays<F>(list: seq<Entry<F>>, op: Op<F>, cap: nat, j: nat)
    requires Distinct(list) && |list| <= cap && j < |list|
    requires op != Forget(list[j].path) && !Evicts(list, op, cap, list[j].path)
    ensures Cached(Apply(list, op, cap), list[j].path)
  {
    var rest, after, p := Without(list, op.path), Apply(list, op, cap), Position(list, op.path);
    if j != p {
      var i := if j < p then j else j - 1;
      assert rest[i] == list[j];
      if op.Forget? {
        assert after[i].path == list[j].path;
      } else if op.Get? && p == |list| {
        assert after[j].path == list[j].path;
      } else {
        assert after[i + 1].path == list[j].path;
      }
    } else {
      assert after[0].path == list[j].path;
    }
  }

  /** Only a forgotten path leaves the cache, or, when a new path enters a full cache, the one path
      whose last use is older than that of every other. */
  lemma OnlyTheLeastRecentlyUsedIsEvicted<F>(history: seq<Op<F>>, op: Op<F>, cap: nat, lost: string)
    requires cap > 0
    requires Cached(After(history, cap), lost) && !Cached(After(history + [op], cap), lost)
    ensures op == Forget(lost) || (op.Put? && !Cached(After(history, cap), op.path) && |After(history, cap)| == cap)
    ensures op == Forget(lost) ||
            forall other :: Cached(After(history, cap), other) && other != lost ==>
                LastUse(history, lost) < LastUse(history, other)
  {
    var list, longer := After(history, cap), history + [op];
    assert longer[..|longer| - 1] == history;
    CacheIsRecencyList(history, cap);
    var k :| 0 <= k < |list| && list[k].path == lost;
    if op != Forget(lost) {
      assert Evicts(list, op, cap, lost) by {
        if !Evicts(list, op, cap, lost) { EveryOtherStays(list, op, cap, k); }
      }
      forall other | Cached(list, other) && other != lost ensures LastUse(history, lost) < LastUse(history, other) {
        var i :| 0 <= i < |list| && list[i].path == other;
        assert Newer(history, list[i].path, list[cap - 1].path);
      }
    }
  }

  /** Stored, not forgotten since, and never idle while `cap` other paths were used. */
  ghost predicate KeptWarm<F>(history: seq<Op<F>>, cap: nat, path: string) {
    if history == [] then false
    else
      var op := history[|history| - 1];
      && op != Forget(path) && |UsedSince(history, path)| < cap
      && ((op.Put? && op.path == path) || KeptWarm(history[..|history| - 1], cap, path))
  }

  /** A path that is used often enough stays cached. */
  lemma {:induction false} WarmPathsStay<F>(history: seq<Op<F>>, cap: nat, path: string)
    requires cap > 0 && KeptWarm(history, cap, path)
    ensures Cached(After(history, cap), path)
  {
    var earlier, op := history[..|history| - 1], history[|history| - 1];
    assert earlier + [op] == history;
    if op.Put? && op.path == path {
      PutIsCached(After(earlier, cap), op, cap);
    } else {
      WarmPathsStay(earlier, cap, path);
      CacheIsRecencyList(earlier, cap);
      WarmStep(After(earlier, cap), earlier, op, cap, path);
    }
  }

  lemma PutIsCached<F>(list: seq<Entry<F>>, op: Op<F>, cap: nat)
    requires op.Put? && cap > 0
    ensures Cached(Apply(list, op, cap), op.path)
  {
    assert Apply(list, op, cap)[0] == Entry(op.path, op.fingerprint);
  }

  lemma WarmStep<F>(list: seq<Entry<F>>, history: seq<Op<F>>, op: Op<F>, cap: nat, path: string)
    requires cap > 0 && |list| <= cap && IsRecencyList(list, history) && Cached(list, path)
    requires op != Forget(path) && |UsedSince(history + [op], path)| < cap
    ensures Cached(Apply(list, op, cap), path)
  {
    var k :| 0 <= k < |list| && list[k].path == path;
    assert !Evicts(list, op, cap, path) by {
      if Evicts(list, op, cap, path) { TooIdle(list, history, op, cap); }
    }
    EveryOtherStays(list, op, cap, k);
  }

  /** A path that is evicted has seen `cap` other paths used since its own last use. */
  lemma TooIdle<F>(list: seq<Entry<F>>, history: seq<Op<F>>, op: Op<F>, cap: nat)
    requires IsRecencyList(list, history) && |list| == cap > 0 && op.Put? && !Cached(list, op.path)
    ensures |UsedSince(history + [op], list[cap - 1].path)| >= cap
  {
    var lost, longer := list[cap - 1].path, history + [op];
    assert longer[..|longer| - 1] == history;
    CountPrefix(list, cap - 1, UsedSince(history, lost));
    SubsetIsSmaller(Paths(list[..cap - 1]) + {op.path}, UsedSince(longer, lost));
  }

  lemma SubsetIsSmaller(a: set<string>, b: set<string>)
    requires a <= b
    ensures |a| <= |b|
  {
    assert b == a + (b - a);
  }

  function Paths<F>(list: seq<Entry<F>>): set<string> {
    set i | 0 <= i < |list| :: list[i].path
  }

  lemma PathsGrow<F>(list: seq<Entry<F>>, e: Entry<F>)
    requires !Cached(list, e.path)
    ensures Paths(list + [e]) == Paths(list) + {e.path} && |Paths(list + [e])| == |Paths(list)| + 1
  {
    var longer := list + [e];
    assert longer[|list|] == e;
    forall i | 0 <= i < |list| ensures longer[i] == list[i] {}
    assert e.path !in Paths(list);
  }

  lemma {:induction false} CountPrefix<F>(list: seq<Entry<F>>, k: nat, used: set<string>)
    requires Distinct(list) && k <= |list| && forall i :: 0 <= i < k ==> list[i].path in used
    ensures |Paths(list[..k])| == k && Paths(list[..k]) <= used
  {
    if k > 0 {
      CountPrefix(list, k - 1, used);
      assert list[..k] == list[..k - 1] + [list[k - 1]];
      PathsGrow(list[..k - 1], list[k - 1]);
    }
  }

  // ---------------------------------------------------------------- the map and the linked list

  class Element<F> {
    const path: string
    var fingerprint: F

    constructor (path: string, fingerprint: F)
      ensures this.path == path && this.fingerprint == fingerprint
    {
      this.path, this.fingerprint := path, fingerprint;
    }
  }

  function Shown<F>(order: seq<Element<F>>): (r: seq<Entry<F>>)
    reads order
    ensures |r| == |order| && forall i :: 0 <= i < |r| ==> r[i] == Entry(order[i].path, order[i].fingerprint)
  {
    seq(|order|, i requires 0 <= i < |order| reads order => Entry(order[i].path, order[i].fingerprint))
  }

  function Index<F>(order: seq<Element<F>>, element: Element<F>): (k: nat)
    requires element in order
    ensures k < |order| && order[k] == element
  {
    if order[0] == element then 0 else 1 + Index(order[1..], element)
  }

  /** The list with an element taken out. */
  function Detached<F>(order: seq<Element<F>>, element: Element<F>): seq<Element<F>>
    requires element in order
  {
    var k := Index(order, element);
    order[..k] + order[k + 1..]
  }

  ghost predicate DistinctPaths<F>(order: seq<Element<F>>) {
    forall i, j :: 0 <= i < j < |order| ==> order[i].path != order[j].path
  }

  lemma DetachedIsWithout<F>(order: seq<Element<F>>, element: Element<F>)
    requires element in order && DistinctPaths(order)
    ensures Shown(Detached(order, element)) == Without(Shown(order), element.path)
    ensures Lookup(Shown(order), element.path) == Some(element.fingerprint)
  {}

  /** The map and the list hold the same elements, one for each path, and never too many. */
  ghost predicate InStep<F>(entries: map<string, Element<F>>, order: seq<Element<F>>) {
    && DistinctPaths(order)
    && (forall e :: e in order ==> e.path in entries && entries[e.path] == e)
    && (forall path :: path in entries ==> entries[path] in order && entries[path].path == path)
  }

  lemma MovedToFront<F>(entries: map<string, Element<F>>, order: seq<Element<F>>, element: Element<F>)
    requires InStep(entries, order) && element in order
    ensures InStep(entries, [element] + Detached(order, element)) && |[element] + Detached(order, element)| == |order|
    ensures forall e :: e in [element] + Detached(order, element) <==> e in order
  {}

  lemma GoneWhenDetached<F>(order: seq<Element<F>>, element: Element<F>)
    requires element in order && DistinctPaths(order)
    ensures element !in Detached(order, element)
  {}

  lemma PushedInFront<F>(entries: map<string, Element<F>>, order: seq<Element<F>>, element: Element<F>)
    requires InStep(entries, order) && element.path !in entries
    ensures InStep(entries[element.path := element], [element] + order)
  {}

  lemma Unlinked<F>(entries: map<string, Element<F>>, order: seq<Element<F>>, element: Element<F>)
    requires InStep(entries, order) && element in order
    ensures InStep(entries - {element.path}, Detached(order, element)) && |Detached(order, element)| == |order| - 1
    ensures element !in Detached(order, element)
  {}

  lemma ShownInFront<F>(element: Element<F>, order: seq<Element<F>>)
    ensures Shown([element] + order) == [Entry(element.path, element.fingerprint)] + Shown(order)
  {}

  lemma MissingFromBoth<F>(order: seq<Element<F>>, path: string)
    requires forall e :: e in order ==> e.path != path
    ensures Lookup(Shown(order), path).None? && Without(Shown(order), path) == Shown(order)
  {}

  lemma PutOfNewPath<F>(list: seq<Entry<F>>, path: string, fingerprint: F, cap: nat)
    requires Without(list, path) == list && |list| <= cap
    ensures var longer := [Entry(path, fingerprint)] + list;
            Apply(list, Op.Put(path, fingerprint), cap) == if |list| < cap then longer else longer[..|list|]
  {}

  class Cache<F> {
    var entries: map<string, Element<F>>
    var order: seq<Element<F>>

    constructor ()
      ensures Valid() && Recency() == []
    {
      entries, order := map[], [];
    }

    ghost predicate Valid()
      reads this
    {
      |order| <= MaxProjectionFingerprints && InStep(entries, order)
    }

    ghost function Recency(): (r: seq<Entry<F>>)
      reads this, order
    {
      Shown(order)
    }

    method MoveToFront(element: Element<F>)
      requires Valid() && element in order
      modifies this`order
      ensures Valid() && forall e :: e in order <==> e in old(order)
      ensures Recency() == [Entry(element.path, element.fingerprint)] + old(Shown(Detached(order, element)))
    {
      MovedToFront(entries, order, element);
      ShownInFront(element, Detached(order, element));
      order := [element] + Detached(order, element);
    }

    method Unlink(element: Element<F>)
      requires InStep(entries, order) && element in order
      modifies this
      ensures InStep(entries, order) && |order| == |old(order)| - 1 && order == old(Detached(order, element))
    {
      Unlinked(entries, order, element);
      entries := entries - {element.path};
      order := Detached(order, element);
    }

    method Get(path: string) returns (found: Option<F>)
      requires Valid()
      modifies this`order
      ensures Valid() && forall e :: e in order <==> e in old(order)
      ensures Recency() == Apply(old(Recency()), Op.Get(path), MaxProjectionFingerprints)
      ensures found == Lookup(old(Recency()), path)
    {
      if path !in entries {
        MissingFromBoth(order, path);
        return None;
      }
      var element := entries[path];
      DetachedIsWithout(order, element);
      MoveToFront(element);
      return Some(element.fingerprint);
    }

    method Put(path: string, fingerprint: F)
      requires Valid()
      modifies this, order
      ensures Valid() && forall e :: e in order ==> e in old(order) || fresh(e)
      ensures Recency() == Apply(old(Recency()), Op.Put(path, fingerprint), MaxProjectionFingerprints)
    {
      if path in entries {
        Overwrite(entries[path], fingerprint);
      } else {
        Insert(path, fingerprint);
      }
    }

    method Insert(path: string, fingerprint: F)
      requires Valid() && path !in entries
      modifies this
      ensures Valid() && forall e :: e in order ==> e in old(order) || fresh(e)
      ensures Recency() == Apply(old(Recency()), Op.Put(path, fingerprint), MaxProjectionFingerprints)
    {
      MissingFromBoth(order, path);
      ghost var before := Recency();
      PutOfNewPath(before, path, fingerprint, MaxProjectionFingerprints);
      PushFront(path, fingerprint);
      if |order| > MaxProjectionFingerprints {
        EvictBack();
      }
    }

    method PushFront(path: string, fingerprint: F)
      requires Valid() && path !in entries
      modifies this
      ensures InStep(entries, order) && |order| == |old(order)| + 1
      ensures forall e :: e in order ==> e in old(order) || fresh(e)
      ensures Recency() == [Entry(path, fingerprint)] + old(Recency())
    {
      var element := new Element(path, fingerprint);
      PushedInFront(entries, order, element);
      ShownInFront(element, order);
      entries, order := entries[path := element], [element] + order;
    }

    method EvictBack()
      requires InStep(entries, order) && |order| > 0
      modifies this
      ensures InStep(entries, order) && |order| == |old(order)| - 1 && forall e :: e in order ==> e in old(order)
      ensures Recency() == old(Recency())[..|old(order)| - 1]
    {
      LastDetached(order);
      Unlink(order[|order| - 1]);
    }

    method Overwrite(element: Element<F>, fingerprint: F)
      requires Valid() && element in order
      modifies this`order, element
      ensures Valid() && forall e :: e in order <==> e in old(order)
      ensures Recency() == Apply(old(Recency()), Op.Put(element.path, fingerprint), MaxProjectionFingerprints)
    {
      DetachedIsWithout(order, element);
      GoneWhenDetached(order, element);
      ghost var rest := Shown(Detached(order, element));
      element.fingerprint := fingerprint;
      assert Shown(Detached(order, element)) == rest;
      MoveToFront(element);
    }

    method Forget(path: string)
      requires Valid()
      modifies this
      ensures Valid() && forall e :: e in order ==> e in old(order)
      ensures Recency() == Apply(old(Recency()), Op.Forget(path), MaxProjectionFingerprints)
    {
      if path in entries {
        var element := entries[path];
        DetachedIsWithout(order, element);
        Unlink(element);
      } else {
        MissingFromBoth(order, path);
      }
    }
  }

  lemma LastDetached<F>(order: seq<Element<F>>)
    requires order != [] && DistinctPaths(order)
    ensures Detached(order, order[|order| - 1]) == order[..|order| - 1]
    ensures Shown(order[..|order| - 1]) == Shown(order)[..|order| - 1]
  {}
}
