/**
  The two-phase key id lock: threads that load keys, create keys and drop guards, while the tables
  change arbitrarily between their transactions.
 */
module KeyLock {
  import opened Prelude
  import opened Tables

  /** The locked ids after trying to lock one, and the guard if nobody held it. */
  function Acquire(locked: set<int>, id: int): (set<int>, Option<int>) {
    if id in locked then (locked, None) else (locked + {id}, Some(id))
  }

  function Release(locked: set<int>, guard: Option<int>): set<int> {
    if guard.Some? then locked - {guard.value} else locked
  }

  /** `KEY_ID_LOCK`: the set of key ids for which a guard exists. */
  class KeyIdLockDb {
    var lockedKeys: set<int>

    constructor ()
      ensures lockedKeys == {}
    {
      lockedKeys := {};
    }

    /** Returns at once; the guard is handed out exactly if nobody holds one. */
    method TryGet(keyId: int) returns (guard: Option<int>)
      modifies this
      ensures (lockedKeys, guard) == Acquire(old(lockedKeys), keyId)
    {
      if keyId in lockedKeys {
        return None;
      }
      lockedKeys := lockedKeys + {keyId};
      return Some(keyId);
    }

    method DropGuard(guard: int)
      modifies this
      ensures lockedKeys == Release(old(lockedKeys), Some(guard))
    {
      lockedKeys := lockedKeys - {guard};
    }
  }

  datatype Request = Request(key: Descriptor, kt: KeyType, uid: int, permitted: (Descriptor, Option<int>) -> bool)

  /** What access control saw: the tables of that transaction and the tuple it accepted. */
  datatype Check = Check(tables: Tables, tuple: AccessTuple)

  datatype Thread =
    | Idle
    | WaitForId(req: Request)                              // by key id: blocking before the transaction
    | Reading(req: Request, guard: Option<int>)            // about to open the transaction
    | Trying(req: Request, check: Check)                   // permitted, inside the transaction, no guard yet
    | Waiting(req: Request, check: Check)                  // rolled back, blocking on the lock
    | Rereading(req: Request, check: Check)                // guard held, about to open a new transaction
    | Loading(req: Request, check: Check, tx: Tables)      // guard held, components are read from `tx`
    | Loaded(req: Request, check: Check, tx: Tables, id: int, entry: KeyView)
    | Owning(created: int)                                 // guard of a key it created

  /** The key id a thread holds the guard of. */
  function GuardOf(th: Thread): Option<int> {
    match th
    case Reading(_, guard) => guard
    case Rereading(_, check) => Some(check.tuple.keyId)
    case Loading(_, check, _) => Some(check.tuple.keyId)
    case Loaded(_, _, _, id, _) => Some(id)
    case Owning(id) => Some(id)
    case _ => None
  }

  datatype System = System(t: Tables, locked: set<int>, threads: map<int, Thread>)

  datatype Step =
    | Start(thread: int, req: Request)
    | Advance(thread: int)
    | Create(thread: int, id: int)
    | DropGuard(thread: int)
    | Change(tables: Tables)

  function ById(id: int): Descriptor {
    Descriptor(KeyIdDomain, id, None, None)
  }

  /** A thread that blocks has no step until the key id is free. */
  predicate Enabled(s: System, step: Step) {
    match step
    case Start(i, _) => i in s.threads && s.threads[i].Idle?
    case Advance(i) =>
      && i in s.threads
      && !s.threads[i].Idle? && !s.threads[i].Loaded? && !s.threads[i].Owning?
      && (s.threads[i].WaitForId? ==> s.threads[i].req.key.nspace !in s.locked)
      && (s.threads[i].Waiting? ==> s.threads[i].check.tuple.keyId !in s.locked)
    case Create(i, id) => i in s.threads && s.threads[i].Idle? && id !in s.locked
    case DropGuard(i) => i in s.threads && (s.threads[i].Loaded? || s.threads[i].Owning?)
    case Change(_) => true
  }

  /** `load_key_entry_internal`, one blocking point or transaction at a time. */
  ghost function AdvanceThread(t: Tables, locked: set<int>, th: Thread): (set<int>, Thread) {
    match th
    case WaitForId(req) =>
      (Acquire(locked, req.key.nspace).0, Reading(req, Some(req.key.nspace)))
    case Reading(req, guard) =>
      var tuple := LoadAccessTuple(t, req.key, req.kt, req.uid);
      if tuple.Err? || !req.permitted(tuple.value.key, tuple.value.access) then (Release(locked, guard), Idle)
      else if guard.Some? then (locked, Loading(req, Check(t, tuple.value), t))
      else (locked, Trying(req, Check(t, tuple.value)))
    case Trying(req, check) =>
      var (taken, guard) := Acquire(locked, check.tuple.keyId);
      (taken, if guard.None? then Waiting(req, check) else Loading(req, check, check.tables))
    case Waiting(req, check) =>
      (Acquire(locked, check.tuple.keyId).0, Rereading(req, check))
    case Rereading(req, check) =>
      if LoadAccessTuple(t, ById(check.tuple.keyId), req.kt, req.uid).Err?
      then (Release(locked, Some(check.tuple.keyId)), Idle)
      else (locked, Loading(req, check, t))
    case Loading(req, check, tx) =>
      if check.tuple.keyId !in tx.keys then (Release(locked, Some(check.tuple.keyId)), Idle)
      else (locked, Loaded(req, check, tx, check.tuple.keyId, View(tx, check.tuple.keyId)))
    case _ => (locked, th)
  }

  ghost function Next(s: System, step: Step): System
    requires Enabled(s, step)
  {
    match step
    case Start(i, req) =>
      s.(threads := s.threads[i := if req.key.domain == KeyIdDomain then WaitForId(req) else Reading(req, None)])
    case Advance(i) =>
      var (locked, th) := AdvanceThread(s.t, s.locked, s.threads[i]);
      s.(locked := locked, threads := s.threads[i := th])
    case Create(i, id) =>
      s.(locked := Acquire(s.locked, id).0, threads := s.threads[i := Owning(id)])
    case DropGuard(i) =>
      s.(locked := Release(s.locked, GuardOf(s.threads[i])), threads := s.threads[i := Idle])
    case Change(t) => s.(t := t)
  }

  // ---------------------------------------------------------------------------------------------

  /** The permission callback accepted the tuple that the request's own descriptor resolved to. */
  ghost predicate Checked(req: Request, check: Check) {
    && LoadAccessTuple(check.tables, req.key, req.kt, req.uid) == Ok(check.tuple)
    && req.permitted(check.tuple.key, check.tuple.access)
  }

  predicate LiveIn(t: Tables, k: int) {
    k in t.keys && t.keys[k].state == Live
  }

  /** What each thread knows, on its own. */
  ghost predicate Sound(th: Thread) {
    match th
    case WaitForId(req) => req.key.domain == KeyIdDomain
    case Reading(req, guard) => guard == if req.key.domain == KeyIdDomain then Some(req.key.nspace) else None
    case Trying(req, check) => Checked(req, check)
    case Waiting(req, check) => Checked(req, check)
    case Rereading(req, check) => Checked(req, check)
    case Loading(req, check, tx) => Checked(req, check) && LiveIn(tx, check.tuple.keyId)
    case Loaded(req, check, tx, id, entry) =>
      Checked(req, check) && id == check.tuple.keyId && LiveIn(tx, id) && entry == View(tx, id)
    case _ => true
  }

  /** The locked ids are exactly the ids of the guards that exist. */
  predicate LocksAreGuards(s: System) {
    && (forall i :: i in s.threads && GuardOf(s.threads[i]).Some? ==> GuardOf(s.threads[i]).value in s.locked)
    && (forall k :: k in s.locked ==> exists i :: i in s.threads && GuardOf(s.threads[i]) == Some(k))
  }

  predicate OneGuardPerKey(s: System) {
    forall i, j :: i in s.threads && j in s.threads && GuardOf(s.threads[i]).Some? && GuardOf(s.threads[i]) == GuardOf(s.threads[j]) ==> i == j
  }

  ghost predicate Good(s: System) {
    && LocksAreGuards(s)
    && OneGuardPerKey(s)
    && forall i :: i in s.threads ==> Sound(s.threads[i])
  }

  lemma AdvanceIsSound(t: Tables, locked: set<int>, th: Thread)
    requires Sound(th)
    ensures Sound(AdvanceThread(t, locked, th).1)
  {
    hide View;
  }

  /** Advancing a thread takes or gives up its own guard and touches no other. */
  lemma AdvanceMovesOwnGuard(t: Tables, locked: set<int>, th: Thread)
    requires Sound(th)
    requires GuardOf(th).Some? ==> GuardOf(th).value in locked
    requires th.WaitForId? ==> th.req.key.nspace !in locked
    requires th.Waiting? ==> th.check.tuple.keyId !in locked
    ensures var (locked', th') := AdvanceThread(t, locked, th);
      || (GuardOf(th') == GuardOf(th) && locked' == locked)
      || (GuardOf(th').None? && GuardOf(th).Some? && locked' == locked - {GuardOf(th).value})
      || (GuardOf(th').Some? && GuardOf(th).None? && GuardOf(th').value !in locked && locked' == locked + {GuardOf(th').value})
  {
    if th.Reading? && th.req.key.domain == KeyIdDomain {
      KeyIdResolvesToItself(t, th.req.key, th.req.kt, th.req.uid);
    }
    hide View, LoadAccessTuple;
  }

  lemma KeyIdResolvesToItself(t: Tables, key: Descriptor, kt: KeyType, uid: int)
    requires key.domain == KeyIdDomain
    ensures LoadAccessTuple(t, key, kt, uid).Ok? ==> LoadAccessTuple(t, key, kt, uid).value.keyId == key.nspace
  {
  }

  /** Replacing the state of one thread this way keeps locks and guards in step. */
  lemma OwnGuardKeepsLocks(s: System, i: int, locked: set<int>, th: Thread)
    requires LocksAreGuards(s) && OneGuardPerKey(s) && i in s.threads
    requires
      || (GuardOf(th) == GuardOf(s.threads[i]) && locked == s.locked)
      || (GuardOf(th).None? && GuardOf(s.threads[i]).Some? && locked == s.locked - {GuardOf(s.threads[i]).value})
      || (GuardOf(th).Some? && GuardOf(s.threads[i]).None? && GuardOf(th).value !in s.locked && locked == s.locked + {GuardOf(th).value})
    ensures LocksAreGuards(s.(locked := locked, threads := s.threads[i := th]))
    ensures OneGuardPerKey(s.(locked := locked, threads := s.threads[i := th]))
  {
    hide GuardOf;
    var u := s.(locked := locked, threads := s.threads[i := th]);
    forall k | k in locked
      ensures exists j :: j in u.threads && GuardOf(u.threads[j]) == Some(k)
    {
      if GuardOf(th) == Some(k) {
        assert GuardOf(u.threads[i]) == Some(k);
      } else {
        var j :| j in s.threads && GuardOf(s.threads[j]) == Some(k);
        assert j != i && u.threads[j] == s.threads[j];
      }
    }
  }

  lemma NextKeepsGood(s: System, step: Step)
    requires Good(s) && Enabled(s, step)
    ensures Good(Next(s, step))
  {
    hide AdvanceThread, View, LocksAreGuards, OneGuardPerKey;
    match step
    case Start(i, req) =>
      OwnGuardKeepsLocks(s, i, s.locked, Next(s, step).threads[i]);
    case Advance(i) =>
      var th := s.threads[i];
      GuardIsLocked(s, i);
      AdvanceIsSound(s.t, s.locked, th);
      AdvanceMovesOwnGuard(s.t, s.locked, th);
      OwnGuardKeepsLocks(s, i, AdvanceThread(s.t, s.locked, th).0, AdvanceThread(s.t, s.locked, th).1);
    case Create(i, id) =>
      OwnGuardKeepsLocks(s, i, s.locked + {id}, Owning(id));
    case DropGuard(i) =>
      OwnGuardKeepsLocks(s, i, Release(s.locked, GuardOf(s.threads[i])), Idle);
    case Change(t) =>
      SameLocks(s, Next(s, step));
  }

  lemma GuardIsLocked(s: System, i: int)
    requires LocksAreGuards(s) && i in s.threads
    ensures GuardOf(s.threads[i]).Some? ==> GuardOf(s.threads[i]).value in s.locked
  {
  }

  lemma SameLocks(s: System, u: System)
    requires LocksAreGuards(s) && OneGuardPerKey(s)
    requires u.locked == s.locked && u.threads == s.threads
    ensures LocksAreGuards(u) && OneGuardPerKey(u)
  {
  }

  ghost predicate IsExecution(states: seq<System>, steps: seq<Step>) {
    && |states| == |steps| + 1
    && states[0].locked == {}
    && (forall i :: i in states[0].threads ==> states[0].threads[i].Idle?)
    && forall i :: 0 <= i < |steps| ==> Enabled(states[i], steps[i]) && states[i + 1] == Next(states[i], steps[i])
  }

  lemma {:induction false} AlwaysGood(states: seq<System>, steps: seq<Step>, n: nat)
    requires IsExecution(states, steps)
    requires n <= |steps|
    ensures Good(states[n])
  {
    hide Next, Enabled;
    if n > 0 {
      AlwaysGood(states, steps, n - 1);
      NextKeepsGood(states[n - 1], steps[n - 1]);
    }
  }

  /** In every interleaving there is never more than one guard for a key id. */
  lemma MutualExclusion(states: seq<System>, steps: seq<Step>, n: nat, i: int, j: int)
    requires IsExecution(states, steps) && n <= |steps|
    requires i in states[n].threads && j in states[n].threads && i != j
    requires GuardOf(states[n].threads[i]).Some?
    ensures GuardOf(states[n].threads[i]) != GuardOf(states[n].threads[j])
  {
    hide Next, Enabled;
    AlwaysGood(states, steps, n);
  }

  /**
    A successful load returns an entry whose id is the guard's. The key was live in the transaction
    the entry was read from, and the permission callback accepted an access tuple of that same id
    that the request resolved to, even if the alias was rebound while the thread was waiting.
   */
  lemma LoadedIsChecked(states: seq<System>, steps: seq<Step>, n: nat, i: int)
    requires IsExecution(states, steps) && n <= |steps|
    requires i in states[n].threads && states[n].threads[i].Loaded?
    ensures var th := states[n].threads[i];
      && GuardOf(th) == Some(th.id)
      && LiveIn(th.tx, th.id) && th.entry == View(th.tx, th.id)
      && Checked(th.req, th.check) && th.check.tuple.keyId == th.id
  {
    hide Next, Enabled, View, LoadAccessTuple;
    AlwaysGood(states, steps, n);
  }
}
