/**
  The wake-up protocol between committing connections, the `notified` flag and the collector step
  that runs on the single worker of the async task, in every interleaving.
 */
module GcProtocol {
  import opened Prelude
  import opened Tables
  import opened Transactions
  import opened TableInvariants
  import opened GarbageCollection

  // ---------------------------------------------------------------------------------------------
  // A transaction that does not ask for collection leaves no garbage behind

  lemma AddKeyKeepsClean(t: Tables, id: int, row: KeyRow)
    requires Clean(t)
    requires id !in t.keys && row.state != Unreferenced
    ensures Clean(AddKey(t, id, row))
    ensures forall s :: BlobsOf(AddKey(t, id, row), id, s) == {}
  {
    var u := AddKey(t, id, row);
    forall b | b in u.blobs
      ensures !Garbage(u, b)
    {
      assert !Garbage(t, b);
    }
    assert forall b :: b in t.blobs ==> !Garbage(t, b) && t.blobs[b].keyId != id;
    assert forall s, b :: b !in BlobsOf(u, id, s);
  }

  lemma AddBlobKeepsClean(t: Tables, k: int, s: SubComponent, blob: Bytes, meta: Option<Meta>)
    requires Clean(t)
    requires k in t.keys && BlobsOf(t, k, s) == {}
    ensures Clean(AddBlob(t, k, s, blob, meta))
    ensures forall o :: o != s && BlobsOf(t, k, o) == {} ==> BlobsOf(AddBlob(t, k, s, blob, meta), k, o) == {}
  {
    hide MetaOf;
    var u := AddBlob(t, k, s, blob, meta);
    var n := NextBlobId(t.blobs);
    forall b | b in u.blobs
      ensures !Garbage(u, b)
    {
      if b == n {
        assert forall c :: c in t.blobs && SameSlot(t.blobs[c], u.blobs[n]) ==> c in BlobsOf(t, k, s);
      } else {
        assert !Garbage(t, b);
        assert t.blobs[b].keyId == k && t.blobs[b].sub == s ==> b in BlobsOf(t, k, s);
      }
    }
    forall o | o != s && BlobsOf(t, k, o) == {}
      ensures BlobsOf(u, k, o) == {}
    {
      assert BlobsOf(u, k, o) == BlobsOf(t, k, o);
    }
  }

  lemma InsertBlobsKeepsClean(t: Tables, n: NewKey)
    requires Clean(t)
    requires n.id in t.keys && n.superseded.None?
    requires forall s :: BlobsOf(t, n.id, s) == {}
    ensures Clean(InsertBlobs(t, n))
  {
    hide Clean, BlobsOf, AddBlob;
    AddBlobKeepsClean(t, n.id, KeyBlob, n.blob, Some(n.meta));
    var t2 := AddBlob(t, n.id, KeyBlob, n.blob, Some(n.meta));
    AddBlobFrame(t, n.id, KeyBlob, n.blob, Some(n.meta));
    if n.cert.Some? {
      AddBlobKeepsClean(t2, n.id, Cert, n.cert.value, None);
      AddBlobFrame(t2, n.id, Cert, n.cert.value, None);
    }
    var t3 := AddBlobIfAny(t2, n.id, Cert, n.cert);
    if n.certChain.Some? {
      AddBlobKeepsClean(t3, n.id, CertChain, n.certChain.value, None);
    }
  }

  /** Cleanness looks at key states and blobs only. */
  lemma SameKeysAndBlobsKeepsClean(t: Tables, u: Tables)
    requires Clean(t)
    requires u.blobs == t.blobs && u.keys.Keys == t.keys.Keys
    requires forall k :: k in t.keys ==> u.keys[k].state != Unreferenced
    ensures Clean(u)
  {
    forall b | b in u.blobs
      ensures !Garbage(u, b)
    {
      assert !Garbage(t, b);
    }
  }

  lemma StoreKeepsClean(t: Tables, op: Op)
    requires Clean(t) && Legal(t, op)
    requires op.StoreNewKey? || op.StoreNewCertificate?
    requires !Apply(t, op).needGc && Apply(t, op).error.None?
    ensures Clean(Apply(t, op).tables)
  {
    hide Clean, BlobsOf, MetaOf, NextBlobId, InsertBlobs;
    match op
    case StoreNewKey(key, n) =>
      var row := NewEntry(n.kt, key.domain, key.nspace, None, Existing, n.kmUuid);
      AddKeyKeepsClean(t, n.id, row);
      InsertBlobsKeepsClean(AddKey(t, n.id, row), n);
      InsertBlobsFrame(AddKey(t, n.id, row), n);
      RebindFreeAliasKeepsClean(InsertBlobs(AddKey(t, n.id, row), n), Populate(t, key, n), t, n.id, key, n.kt);
    case StoreNewCertificate(key, id, kt, chain, keyMeta, kmUuid) =>
      var row := NewEntry(kt, key.domain, key.nspace, None, Existing, kmUuid);
      AddKeyKeepsClean(t, id, row);
      AddBlobKeepsClean(AddKey(t, id, row), id, CertChain, chain, None);
      RebindFreeAliasKeepsClean(AddBlob(AddKey(t, id, row), id, CertChain, chain, None),
                                PopulateCertificate(t, key, id, kt, chain, keyMeta, kmUuid), t, id, key, kt);
  }

  /** Rebinding an alias nobody holds retires nobody. */
  lemma RebindFreeAliasKeepsClean(t2: Tables, t3: Tables, t: Tables, id: int, key: Descriptor, kt: KeyType)
    requires Clean(t2) && t3.blobs == t2.blobs && t3.keys == t2.keys
    requires key.alias.Some? && RowsAt(t, kt, key.domain, key.nspace, key.alias.value) == {}
    requires id !in t.keys && id in t2.keys && t2.keys == t.keys[id := t2.keys[id]]
    ensures Clean(Rebind(t3, id, key.alias.value, key.domain, key.nspace, kt))
  {
    hide Newest, Garbage;
    var u := Rebind(t3, id, key.alias.value, key.domain, key.nspace, kt);
    var before, holders := RowsAt(t, kt, key.domain, key.nspace, key.alias.value), RowsAt(t3, kt, key.domain, key.nspace, key.alias.value);
    assert forall k :: k in holders ==> k == id || k in before;
    SameKeysAndBlobsKeepsClean(t2, u);
  }

  lemma NewSuperKeyKeepsClean(t: Tables, id: int, row: KeyRow, t1: Tables, blob: Bytes, meta: Meta)
    requires Clean(t) && id !in t.keys && row.state == Live
    requires t1.keys == AddKey(t, id, row).keys && t1.blobs == t.blobs
    ensures Clean(AddBlob(t1, id, KeyBlob, blob, Some(meta)))
  {
    hide Newest, Garbage, Clean;
    AddKeyKeepsClean(t, id, row);
    assert Clean(t1) by {
      CleanHasNoUnreferenced(AddKey(t, id, row));
      SameKeysAndBlobsKeepsClean(AddKey(t, id, row), t1);
    }
    assert BlobsOf(t1, id, KeyBlob) == BlobsOf(AddKey(t, id, row), id, KeyBlob);
    AddBlobKeepsClean(t1, id, KeyBlob, blob, Some(meta));
  }

  lemma CleanHasNoUnreferenced(t: Tables)
    requires Clean(t)
    ensures forall k :: k in t.keys ==> t.keys[k].state != Unreferenced
  {
  }

  /** Whatever makes a clean database dirty reports that collection is needed. */
  lemma CleanUnlessNotified(t: Tables, op: Op)
    requires Inv(t) && Clean(t) && Legal(t, op) && !op.CollectGarbage?
    requires !Apply(t, op).needGc
    ensures Clean(Apply(t, op).tables)
  {
    hide Newest, Garbage, BlobsOf, LoadComponent, LoadAccessTuple, MetaOf, NextBlobId, RowsAt, InsertBlobs, Rebind;
    if Apply(t, op).error.None? {
      match op
      case StoreNewKey(_, _) =>
        StoreKeepsClean(t, op);
      case StoreNewCertificate(_, _, _, _, _, _) =>
        StoreKeepsClean(t, op);
      case CreateKeyEntry(id, domain, nspace, kt, kmUuid) =>
        AddKeyKeepsClean(t, id, NewEntry(kt, domain, nspace, None, Existing, kmUuid));
      case StoreSuperKey(id, user, alias, blob, meta, keyMeta) =>
        var row := NewEntry(Super, App, user, Some(alias), Live, KEYSTORE_UUID);
        var t1 := AddKey(t, id, row);
        NewSuperKeyKeepsClean(t, id, row, t1.(keyMeta := t1.keyMeta[id := MetaOf(t1.keyMeta, id) + keyMeta]), blob, meta);
      case GetOrCreateKey(id, domain, nspace, alias, kmUuid, blob, meta) =>
        var row := NewEntry(Super, domain, nspace, Some(alias), Live, kmUuid);
        NewSuperKeyKeepsClean(t, id, row, AddKey(t, id, row), blob, meta);
      case _ =>
        SameKeysAndBlobsKeepsClean(t, Apply(t, op).tables);
    }
  }

  // ---------------------------------------------------------------------------------------------
  // The protocol

  /** Where the worker is in the collector's step. */
  datatype Pc = Resting | Dequeued | Cleared | Processed

  datatype System = System(
    t: Tables,
    gc: GcState,
    notified: bool,    // the atomic flag shared by all notifiers and the step
    announcing: nat,   // exchanged the flag, and are about to queue a step
    queued: nat,       // steps in the low priority queue
    pc: Pc,
    owed: nat)         // committed with `need_gc`, and have not tried to notify yet

  datatype Step =
    | CommitTx(op: Op)
    | Notify
    | Enqueue
    | Begin
    | ClearFlag
    | Process(batch: seq<int>)
    | Reschedule

  ghost predicate Enabled(s: System, step: Step) {
    match step
    case CommitTx(op) => !op.CollectGarbage? && Legal(s.t, op) && NoLeftoverBlobs(s.t, op)
    case Notify => s.owed > 0
    case Enqueue => s.announcing > 0
    case Begin => s.queued > 0 && s.pc == Resting
    case ClearFlag => s.pc == Dequeued
    case Process(batch) => s.pc == Cleared && (s.gc.superseded == [] ==> ValidBatch(Swept(s.t, s.gc.deleted), batch))
    case Reschedule => s.pc == Processed
  }

  /** Exchange the flag from 0 to 1; whoever succeeds queues a step. */
  function TryAnnounce(s: System): System {
    if s.notified then s else s.(notified := true, announcing := s.announcing + 1)
  }

  ghost function Next(s: System, step: Step): System
    requires Enabled(s, step)
  {
    match step
    case CommitTx(op) =>
      var o := Apply(s.t, op);
      s.(t := o.tables, owed := s.owed + if o.needGc then 1 else 0)
    case Notify => TryAnnounce(s.(owed := s.owed - 1))
    case Enqueue => s.(announcing := s.announcing - 1, queued := s.queued + 1)
    case Begin => s.(queued := s.queued - 1, pc := Dequeued)
    case ClearFlag => s.(notified := false, pc := Cleared)
    case Process(batch) =>
      s.(t := ProcessTables(s.t, s.gc, batch), gc := ProcessLists(s.t, s.gc, batch), pc := Processed)
    case Reschedule =>
      var s' := s.(pc := Resting);
      if s.gc.deleted != [] then TryAnnounce(s') else s'
  }

  /** Steps announced and not begun. */
  function Announced(s: System): nat {
    s.announcing + s.queued + if s.pc == Dequeued then 1 else 0
  }

  predicate Busy(s: System) {
    s.owed > 0 || s.notified || s.pc == Cleared || (s.pc == Processed && s.gc.deleted != [])
  }

  ghost predicate Good(s: System) {
    && Inv(s.t)
    && ListsGarbage(s.t, s.gc)
    && Announced(s) == (if s.notified then 1 else 0)
    && (Busy(s) || (Clean(s.t) && s.gc == IDLE))
  }

  lemma NextKeepsGood(s: System, step: Step)
    requires Good(s) && Enabled(s, step)
    ensures Good(Next(s, step))
  {
    hide Inv, Clean, ListsGarbage, Apply, Legal, Collect, Swept, ValidBatch, NoLeftoverBlobs, ProcessTables, ProcessLists;
    match step
    case CommitTx(op) =>
      ApplyKeepsInv(s.t, op);
      CommitKeepsLists(s.t, op, s.gc);
      if !Busy(s) && !Apply(s.t, op).needGc {
        CleanUnlessNotified(s.t, op);
      }
    case Process(batch) =>
      ProcessKeepsInv(s.t, s.gc, batch);
      ProcessKeepsLists(s.t, s.gc, batch);
      if ProcessLists(s.t, s.gc, batch).deleted == [] {
        ProcessFinishes(s.t, s.gc, batch);
      }
    case _ =>
  }

  /** The service starts by marking half-created entries, from any tables an earlier one left, and then notifies the collector. */
  lemma StartIsGood(t: Tables)
    requires Inv(t)
    ensures Good(System(Apply(t, CleanupLeftovers).tables, IDLE, false, 0, 0, Resting, 1))
  {
    hide Inv, Apply;
    CleanupKeepsInv(t);
  }

  /** A fresh installation may start with nothing to do. */
  lemma FreshStartIsGood()
    ensures Good(System(EMPTY, IDLE, false, 0, 0, Resting, 0))
  {
    EmptyIsGood();
  }

  /** As long as there is something to do for notifiers or collector, one of them can take a step. */
  lemma NeverStuck(s: System) returns (step: Step)
    requires s.owed > 0 || Announced(s) > 0 || s.pc != Resting
    ensures !step.CommitTx? && Enabled(s, step)
  {
    if s.owed > 0 {
      step := Notify;
    } else if s.pc == Cleared {
      var batch := BatchExists(Swept(s.t, s.gc.deleted));
      step := Process(batch);
    } else if s.pc != Resting {
      step := if s.pc == Dequeued then ClearFlag else Reschedule;
    } else {
      step := if s.announcing > 0 then Enqueue else Begin;
    }
  }

  ghost predicate IsExecution(states: seq<System>, steps: seq<Step>) {
    && |states| == |steps| + 1
    && forall i :: 0 <= i < |steps| ==> Enabled(states[i], steps[i]) && states[i + 1] == Next(states[i], steps[i])
  }

  /** In every execution, whatever the interleaving, the protocol invariant holds throughout. */
  lemma {:induction false} AlwaysGood(states: seq<System>, steps: seq<Step>, n: nat)
    requires IsExecution(states, steps) && Good(states[0])
    requires n <= |steps|
    ensures Good(states[n])
  {
    hide Good, Next, Enabled;
    if n > 0 {
      AlwaysGood(states, steps, n - 1);
      NextKeepsGood(states[n - 1], steps[n - 1]);
    }
  }

  /**
    No wake-up is lost: when no commit is still to notify and no step is announced or running, no
    unreferenced key and no superseded or orphaned blob remains.
   */
  lemma QuiescentIsClean(states: seq<System>, steps: seq<Step>, n: nat)
    requires IsExecution(states, steps) && Good(states[0])
    requires n <= |steps|
    requires states[n].owed == 0 && Announced(states[n]) == 0 && states[n].pc == Resting
    ensures Clean(states[n].t) && states[n].gc == IDLE
  {
    AlwaysGood(states, steps, n);
  }

  /** In every execution, a collector step leaves every key in use exactly as it was. */
  lemma CollectorIsInvisible(states: seq<System>, steps: seq<Step>, n: nat, k: int)
    requires IsExecution(states, steps) && Good(states[0])
    requires n < |steps| && steps[n].Process?
    requires k in states[n].t.keys && states[n].t.keys[k].state != Unreferenced
    ensures k in states[n + 1].t.keys && View(states[n + 1].t, k) == View(states[n].t, k)
  {
    hide View, Collect, Legal, Swept, ValidBatch;
    AlwaysGood(states, steps, n);
    var s := states[n];
    CollectIsInvisible(s.t, s.gc.deleted, steps[n].batch, k);
  }
}
