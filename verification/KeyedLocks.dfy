/** The reference-counted keyed lock of internal/projections/store.go.

    A caller of `lock` passes through four atomic steps: it registers with the entry for its key
    (one critical section of the locker's mutex), acquires the entry's own mutex, releases that
    mutex, and finally drops its reference (another critical section). Any number of goroutines
    interleave these steps. `R` is the type of references to entries. */
module KeyedLocks {

  /** How far a goroutine is into one lock/unlock cycle. */
  datatype Phase<R> =
    | Outside
    | Waiting(key: string, entry: R)
    | Holding(key: string, entry: R)
    | Leaving(key: string, entry: R)  // entry mutex released, reference not yet dropped

  /** The contents of a keyedLock: its mutex and its reference count. */
  datatype Entry = Entry(locked: bool, refs: int)

  datatype State<R> = State(locks: map<string, R>, entries: map<R, Entry>, threads: map<nat, Phase<R>>)

  datatype Step<R> =
    | Register(t: nat, key: string, blank: R)  // blank: the entry allocated if the key has none
    | Enter(t: nat)
    | Leave(t: nat)
    | Drop(t: nat)

  ghost function PhaseOf<R>(s: State<R>, t: nat): Phase<R> {
    if t in s.threads then s.threads[t] else Outside
  }

  ghost predicate Enabled<R>(s: State<R>, step: Step<R>) {
    var phase := PhaseOf(s, step.t);
    match step
    case Register(_, key, blank) =>
      phase.Outside? && if key in s.locks then s.locks[key] in s.entries else blank !in s.entries
    case Enter(_) => phase.Waiting? && phase.entry in s.entries && !s.entries[phase.entry].locked
    case Leave(_) => phase.Holding? && phase.entry in s.entries
    case Drop(_) => phase.Leaving? && phase.entry in s.entries
  }

  ghost function Apply<R>(s: State<R>, step: Step<R>): State<R>
    requires Enabled(s, step)
  {
    var phase := PhaseOf(s, step.t);
    match step
    case Register(t, key, blank) =>
      var entry := if key in s.locks then s.locks[key] else blank;
      var before := if key in s.locks then s.entries[entry] else Entry(false, 0);
      State(s.locks[key := entry], s.entries[entry := before.(refs := before.refs + 1)],
            s.threads[t := Waiting(key, entry)])
    case Enter(t) =>
      s.(entries := s.entries[phase.entry := s.entries[phase.entry].(locked := true)],
         threads := s.threads[t := Holding(phase.key, phase.entry)])
    case Leave(t) =>
      s.(entries := s.entries[phase.entry := s.entries[phase.entry].(locked := false)],
         threads := s.threads[t := Leaving(phase.key, phase.entry)])
    case Drop(t) =>
      var after := s.entries[phase.entry].(refs := s.entries[phase.entry].refs - 1);
      State(if after.refs == 0 then s.locks - {phase.key} else s.locks,
            s.entries[phase.entry := after], s.threads[t := Outside])
  }

  ghost predicate Run<R>(s: State<R>, steps: seq<Step<R>>, end: State<R>)
    decreases steps
  {
    if steps == [] then end == s
    else Enabled(s, steps[0]) && Run(Apply(s, steps[0]), steps[1..], end)
  }

  ghost predicate Fresh<R>(s: State<R>) {
    s.locks == map[] && s.threads == map[]
  }

  /** The goroutines that hold or wait on `key`, or still owe it a dereference. */
  ghost function Users<R>(s: State<R>, key: string): set<nat> {
    set t | t in s.threads && !s.threads[t].Outside? && s.threads[t].key == key
  }

  ghost function Holders<R>(s: State<R>, key: string): set<nat> {
    set t | t in s.threads && s.threads[t].Holding? && s.threads[t].key == key
  }

  /** At most one goroutine holds the key. */
  ghost predicate MutualExclusion<R>(s: State<R>, key: string) {
    forall t, u :: t in Holders(s, key) && u in Holders(s, key) ==> t == u
  }

  /** The key has an entry exactly while somebody uses it; that one entry is the one every user
      refers to, counts them exactly, and is locked exactly while one of them holds the key. */
  ghost predicate EntryMatchesUsers<R>(s: State<R>, key: string) {
    && (key in s.locks <==> Users(s, key) != {})
    && (key in s.locks ==>
          var e := s.locks[key];
          && e in s.entries
          && s.entries[e].refs == |Users(s, key)|
          && (s.entries[e].locked <==> Holders(s, key) != {})
          && forall t :: t in Users(s, key) ==> s.threads[t].entry == e)
  }

  ghost predicate Injective<R>(s: State<R>) {
    forall k, l :: k in s.locks && l in s.locks && s.locks[k] == s.locks[l] ==> k == l
  }

  ghost predicate KeyOk<R>(s: State<R>, key: string) {
    MutualExclusion(s, key) && EntryMatchesUsers(s, key)
  }

  ghost predicate Inv<R>(s: State<R>) {
    Injective(s) && forall key :: KeyOk(s, key)
  }

  /** What moving one goroutine does to the users and holders of a key. */
  lemma Moved<R>(s: State<R>, s': State<R>, t: nat, phase: Phase<R>, key: string)
    requires s'.threads == s.threads[t := phase]
    ensures Users(s', key) == if !phase.Outside? && phase.key == key then Users(s, key) + {t}
                              else Users(s, key) - {t}
    ensures Holders(s', key) == if phase.Holding? && phase.key == key then Holders(s, key) + {t}
                                else Holders(s, key) - {t}
  {}

  /** A key that the moving goroutine is not concerned with stays as it is. */
  lemma OtherKey<R>(s: State<R>, s': State<R>, t: nat, phase: Phase<R>, k: string)
    requires KeyOk(s, k) && s'.threads == s.threads[t := phase]
    requires !phase.Outside? ==> phase.key != k
    requires !PhaseOf(s, t).Outside? ==> PhaseOf(s, t).key != k
    requires k in s.locks <==> k in s'.locks
    requires k in s.locks ==> s'.locks[k] == s.locks[k] && s.locks[k] in s.entries && s.locks[k] in s'.entries
                              && s'.entries[s.locks[k]] == s.entries[s.locks[k]]
    ensures KeyOk(s', k)
  {
    Moved(s, s', t, phase, k);
    assert Users(s', k) == Users(s, k) && Holders(s', k) == Holders(s, k);
    forall u | u in Users(s, k) ensures s'.threads[u] == s.threads[u] {}
  }

  lemma RegisterCounts<R>(s: State<R>, t: nat, key: string, blank: R)
    requires Enabled(s, Register(t, key, blank))
    ensures var s' := Apply(s, Register(t, key, blank));
            && t !in Users(s, key) && Users(s', key) == Users(s, key) + {t} && |Users(s', key)| == |Users(s, key)| + 1
            && Holders(s', key) == Holders(s, key)
  {
    var s' := Apply(s, Register(t, key, blank));
    Moved(s, s', t, s'.threads[t], key);
    assert t !in Users(s, key) && t !in Holders(s, key);
  }

  lemma RegisterHere<R>(s: State<R>, t: nat, key: string, blank: R)
    requires KeyOk(s, key) && Enabled(s, Register(t, key, blank))
    ensures KeyOk(Apply(s, Register(t, key, blank)), key)
  {
    var s' := Apply(s, Register(t, key, blank));
    RegisterCounts(s, t, key, blank);
    assert Holders(s, key) <= Users(s, key);
    forall u | u in Users(s, key) ensures s'.threads[u] == s.threads[u] {}
  }

  lemma EnterHere<R>(s: State<R>, t: nat)
    requires Enabled(s, Enter(t)) && KeyOk(s, s.threads[t].key)
    ensures KeyOk(Apply(s, Enter(t)), s.threads[t].key)
  {
    var s', key := Apply(s, Enter(t)), s.threads[t].key;
    Moved(s, s', t, s'.threads[t], key);
    assert t in Users(s, key);
    assert Users(s', key) == Users(s, key) && Holders(s', key) == {t};
    assert t in Holders(s', key);
  }

  lemma LeaveHere<R>(s: State<R>, t: nat)
    requires Enabled(s, Leave(t)) && KeyOk(s, s.threads[t].key)
    ensures KeyOk(Apply(s, Leave(t)), s.threads[t].key)
  {
    var s', key := Apply(s, Leave(t)), s.threads[t].key;
    Moved(s, s', t, s'.threads[t], key);
    assert t in Users(s, key) && t in Holders(s, key);
    assert Users(s', key) == Users(s, key) && Holders(s', key) == {};
  }

  lemma DropHere<R>(s: State<R>, t: nat)
    requires Enabled(s, Drop(t)) && KeyOk(s, s.threads[t].key)
    ensures KeyOk(Apply(s, Drop(t)), s.threads[t].key)
  {
    var s', key := Apply(s, Drop(t)), s.threads[t].key;
    Moved(s, s', t, s'.threads[t], key);
    assert t in Users(s, key) && t !in Holders(s, key);
    assert Users(s', key) == Users(s, key) - {t} && |Users(s', key)| == |Users(s, key)| - 1;
    assert Holders(s', key) == Holders(s, key) && Holders(s, key) <= Users(s', key);
  }

  ghost function KeyOfStep<R>(s: State<R>, step: Step<R>): string
    requires Enabled(s, step)
  {
    if step.Register? then step.key else s.threads[step.t].key
  }

  lemma StepHere<R>(s: State<R>, step: Step<R>)
    requires Enabled(s, step) && KeyOk(s, KeyOfStep(s, step))
    ensures KeyOk(Apply(s, step), KeyOfStep(s, step))
  {
    match step
    case Register(t, key, blank) => RegisterHere(s, t, key, blank);
    case Enter(t) => EnterHere(s, t);
    case Leave(t) => LeaveHere(s, t);
    case Drop(t) => DropHere(s, t);
  }

  lemma StepElsewhere<R>(s: State<R>, step: Step<R>, k: string)
    requires Inv(s) && Enabled(s, step) && k != KeyOfStep(s, step)
    ensures KeyOk(Apply(s, step), k)
  {
    var key := KeyOfStep(s, step);
    var s' := Apply(s, step);
    assert KeyOk(s, k) && KeyOk(s, key);
    assert step.Register? || step.t in Users(s, key);
    OtherKey(s, s', step.t, s'.threads[step.t], k);
  }

  lemma StepKeepsInjective<R>(s: State<R>, step: Step<R>)
    requires Inv(s) && Enabled(s, step)
    ensures Injective(Apply(s, step))
  {
    forall k | k in s.locks && step.Register? && step.key !in s.locks ensures s.locks[k] != step.blank {
      assert KeyOk(s, k);
    }
  }

  lemma StepKeepsInv<R>(s: State<R>, step: Step<R>)
    requires Inv(s) && Enabled(s, step)
    ensures Inv(Apply(s, step))
  {
    StepKeepsInjective(s, step);
    forall k ensures KeyOk(Apply(s, step), k) {
      if k == KeyOfStep(s, step) {
        assert KeyOk(s, k);
        StepHere(s, step);
      } else {
        StepElsewhere(s, step, k);
      }
    }
  }

  lemma {:induction false} RunKeepsInv<R>(s: State<R>, steps: seq<Step<R>>, end: State<R>)
    requires Inv(s) && Run(s, steps, end)
    ensures Inv(end)
    decreases steps
  {
    if steps != [] {
      StepKeepsInv(s, steps[0]);
      RunKeepsInv(Apply(s, steps[0]), steps[1..], end);
    }
  }

  /** Main result: after any run, by any number of goroutines in any interleaving, every key is held
      by at most one goroutine, has an entry exactly while somebody uses it, and all its users refer
      to that one entry, which counts them exactly and is locked exactly while one of them holds it. */
  lemma EveryRunIsSafe<R>(start: State<R>, steps: seq<Step<R>>, end: State<R>)
    requires Fresh(start) && Run(start, steps, end)
    ensures Injective(end) && forall key :: MutualExclusion(end, key) && EntryMatchesUsers(end, key)
    ensures Inv(end)
  {
    assert Inv(start);
    RunKeepsInv(start, steps, end);
    forall key ensures MutualExclusion(end, key) && EntryMatchesUsers(end, key) { assert KeyOk(end, key); }
  }

  /** Deadlock freedom: whoever is inside the protocol can move on, or waits behind a holder of the
      same key who can. */
  lemma NeverStuck<R>(s: State<R>, t: nat)
    requires Inv(s) && t in s.threads && !s.threads[t].Outside?
    ensures exists step: Step<R> :: Enabled(s, step) &&
              (step == Enter(t) || step == Drop(t) || (step.Leave? && step.t in Holders(s, s.threads[t].key)))
  {
    var key := s.threads[t].key;
    assert KeyOk(s, key) && t in Users(s, key);
    var step: Step<R>;
    match s.threads[t] {
      case Waiting(_, e) =>
        if s.entries[e].locked {
          var u :| u in Holders(s, key);
          assert u in Users(s, key);
          step := Leave(u);
        } else {
          step := Enter(t);
        }
      case Holding(_, _) => step := Leave(t);
      case Leaving(_, _) => step := Drop(t);
    }
    assert Enabled(s, step);
  }

  /** The table is empty again once everyone has left: no entry leaks. */
  lemma QuiescentIsEmpty<R>(s: State<R>)
    requires Inv(s) && forall t :: t in s.threads ==> s.threads[t].Outside?
    ensures s.locks == map[]
  {
    forall key ensures key !in s.locks { assert KeyOk(s, key) && Users(s, key) == {}; }
  }

  /** A keyedLock: its mutex and its reference count. */
  class KeyedLock {
    var locked: bool
    var refs: int

    constructor ()
      ensures !locked && refs == 0
    {
      locked, refs := false, 0;
    }
  }

  /** The locker itself. Each method is one atomic step of `lock` or of the unlock closure it
      returns, so any interleaving of calls is a run; `threads` records, for the proof only, where
      every goroutine stands, and `created` every entry ever allocated. */
  class KeyedLocker {
    var locks: map<string, KeyedLock>
    ghost var threads: map<nat, Phase<KeyedLock>>
    ghost var created: set<KeyedLock>

    ghost function Abs(): State<KeyedLock>
      reads this, created
    {
      State(locks, map e | e in created :: Entry(e.locked, e.refs), threads)
    }

    constructor ()
      ensures Fresh(Abs()) && created == {}
    {
      locks, threads, created := map[], map[], {};
    }

    /** The first critical section of `lock`. */
    method Register(ghost t: nat, key: string) returns (entry: KeyedLock)
      requires PhaseOf(Abs(), t).Outside? && (key in locks ==> locks[key] in created)
      modifies this, created
      ensures fresh(created - old(created))
      ensures Enabled(old(Abs()), Step.Register(t, key, entry))
      ensures Abs() == Apply(old(Abs()), Step.Register(t, key, entry))
    {
      if key in locks {
        entry := locks[key];
      } else {
        entry := new KeyedLock();
        locks := locks[key := entry];
        created := created + {entry};
      }
      entry.refs := entry.refs + 1;
      threads := threads[t := Waiting(key, entry)];
    }

    /** Acquiring the entry's mutex, at the moment it is free. */
    method Enter(ghost t: nat, entry: KeyedLock)
      requires Enabled(Abs(), Step.Enter(t)) && PhaseOf(Abs(), t).entry == entry
      modifies this`threads, entry
      ensures Abs() == Apply(old(Abs()), Step.Enter(t))
    {
      entry.locked := true;
      threads := threads[t := Holding(threads[t].key, entry)];
    }

    /** Releasing the entry's mutex, before the reference is dropped. */
    method Leave(ghost t: nat, entry: KeyedLock)
      requires Enabled(Abs(), Step.Leave(t)) && PhaseOf(Abs(), t).entry == entry
      modifies this`threads, entry
      ensures Abs() == Apply(old(Abs()), Step.Leave(t))
    {
      entry.locked := false;
      threads := threads[t := Leaving(threads[t].key, entry)];
    }

    /** The second critical section: drop the reference, and the entry with the last one. */
    method Drop(ghost t: nat, key: string, entry: KeyedLock)
      requires Enabled(Abs(), Step.Drop(t)) && PhaseOf(Abs(), t) == Leaving(key, entry)
      modifies this`locks, this`threads, entry
      ensures Abs() == Apply(old(Abs()), Step.Drop(t))
    {
      entry.refs := entry.refs - 1;
      if entry.refs == 0 {
        locks := locks - {key};
      }
      threads := threads[t := Outside];
    }
  }
}
