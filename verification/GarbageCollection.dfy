/**
  The blob garbage collector. It works from lists read in an earlier transaction while other
  connections commit; nothing it does can be seen through a key entry that is in use.
 */
module GarbageCollection {
  import opened Prelude
  import opened Tables
  import opened Transactions
  import opened TableInvariants

  /** The collector's memory: blobs already handled, and superseded blobs still to handle. */
  datatype GcState = GcState(deleted: seq<int>, superseded: seq<Entry>)

  const IDLE := GcState([], [])

  predicate GarbageKeyBlob(t: Tables, b: int) {
    Garbage(t, b) && t.blobs[b].sub == KeyBlob
  }

  /** Everything on the lists is a key blob that is not the newest of an existing key entry. */
  ghost predicate ListsGarbage(t: Tables, g: GcState) {
    && (forall b :: b in g.deleted ==> GarbageKeyBlob(t, b))
    && (forall b :: b in Ids(g.superseded) ==> GarbageKeyBlob(t, b))
    && Distinct(g.deleted + Ids(g.superseded))
    && (g.superseded != [] ==> g.deleted != [])
  }

  // ---------------------------------------------------------------------------------------------
  // Collection is invisible

  lemma PurgeKeepsComponent(t: Tables, ids: set<int>, k: int, s: SubComponent)
    requires k in t.keys
    requires forall b :: b in ids ==> Garbage(t, b)
    ensures LoadComponent(PurgeBlobs(t, ids), k, s) == LoadComponent(t, k, s)
    ensures LoadComponent(DropBlobs(t, ids), k, s) == LoadComponent(t, k, s)
  {
    hide LoadComponent;
    var c := LoadComponent(t, k, s);
    if c.Some? {
      assert c.value.id !in ids;
      ComponentIs(t, k, s, c.value.id);
      ComponentIs(PurgeBlobs(t, ids), k, s, c.value.id);
      ComponentIs(DropBlobs(t, ids), k, s, c.value.id);
    } else {
      assert BlobsOf(PurgeBlobs(t, ids), k, s) == {} && BlobsOf(DropBlobs(t, ids), k, s) == {};
    }
  }

  lemma DeleteKeysKeepsComponent(t: Tables, ids: set<int>, k: int, s: SubComponent)
    ensures LoadComponent(DeleteKeys(t, ids), k, s) == LoadComponent(t, k, s)
  {
    assert BlobsOf(DeleteKeys(t, ids), k, s) == BlobsOf(t, k, s);
  }

  lemma CollectKeepsComponent(t: Tables, done: seq<int>, batch: seq<int>, k: int, s: SubComponent)
    requires k in t.keys && t.keys[k].state != Unreferenced
    requires forall b :: b in done ==> Garbage(t, b)
    ensures LoadComponent(Collect(t, done, batch), k, s) == LoadComponent(t, k, s)
  {
    hide LoadComponent;
    var t1 := PurgeBlobs(t, Elements(done));
    PurgeKeepsComponent(t, Elements(done), k, s);
    DeleteKeysKeepsComponent(t1, UnreferencedKeys(t1), k, s);
    var u := Swept(t, done);
    PurgeKeepsComponent(u, OtherGarbage(u), k, s);
  }

  /** A collection changes nothing a caller can observe of a key that is not unreferenced. */
  lemma CollectIsInvisible(t: Tables, done: seq<int>, batch: seq<int>, k: int)
    requires k in t.keys && t.keys[k].state != Unreferenced
    requires forall b :: b in done ==> Garbage(t, b)
    ensures k in Collect(t, done, batch).keys && View(Collect(t, done, batch), k) == View(t, k)
  {
    hide LoadComponent, Collect, Garbage;
    CollectKeepsComponent(t, done, batch, k, KeyBlob);
    CollectKeepsComponent(t, done, batch, k, Cert);
    CollectKeepsComponent(t, done, batch, k, CertChain);
    CollectKeepsRows(t, done, batch, k);
  }

  lemma CollectKeepsRows(t: Tables, done: seq<int>, batch: seq<int>, k: int)
    requires k in t.keys && t.keys[k].state != Unreferenced
    ensures var u := Collect(t, done, batch);
      && k in u.keys && u.keys[k] == t.keys[k]
      && ParamsOf(u, k) == ParamsOf(t, k) && MetaOf(u.keyMeta, k) == MetaOf(t.keyMeta, k)
      && (map g | g in u.grants && u.grants[g].keyId == k :: u.grants[g]) == (map g | g in t.grants && t.grants[g].keyId == k :: t.grants[g])
  {
    hide OtherGarbage;
    assert k !in UnreferencedKeys(PurgeBlobs(t, Elements(done)));
  }

  // ---------------------------------------------------------------------------------------------
  // Garbage stays garbage while others commit

  lemma InsertKeepsKeyBlobs(t: Tables, op: Op, b: int)
    requires Created(op).Some? && b in t.blobs
    ensures b in Apply(t, op).tables.blobs && Apply(t, op).tables.blobs[b] == t.blobs[b]
  {
    hide LoadComponent, RowsAt, MetaOf, Max, InsertBlobs;
    match op
    case StoreNewKey(key, n) =>
      InsertBlobsKeepsBlobs(AddKey(t, n.id, NewEntry(n.kt, key.domain, key.nspace, None, Existing, n.kmUuid)), n, b);
    case _ =>
  }

  lemma CommitKeepsKeyBlobs(t: Tables, op: Op, b: int)
    requires !op.CollectGarbage?
    requires b in t.blobs && t.blobs[b].sub == KeyBlob
    ensures b in Apply(t, op).tables.blobs && Apply(t, op).tables.blobs[b] == t.blobs[b]
  {
    hide LoadComponent, LoadAccessTuple, MetaOf, Max, Decremented, UsageLimit, KeysOfUser, KeysOfNamespace, InsertBlobs, Rebind, Populate, PopulateCertificate;
    if Created(op).Some? {
      InsertKeepsKeyBlobs(t, op, b);
    }
  }

  lemma InsertBlobsKeepsBlobs(t: Tables, n: NewKey, b: int)
    requires b in t.blobs
    ensures b in InsertBlobs(t, n).blobs && InsertBlobs(t, n).blobs[b] == t.blobs[b]
  {
    hide MetaOf;
    var t1 := if n.superseded.Some?
              then AddBlob(t, n.id, KeyBlob, n.superseded.value.0, Some(n.superseded.value.1)) else t;
    assert b in t1.blobs && t1.blobs[b] == t.blobs[b];
    var t2 := AddBlob(t1, n.id, KeyBlob, n.blob, Some(n.meta));
    assert b in t2.blobs && t2.blobs[b] == t.blobs[b];
    var t3 := AddBlobIfAny(t2, n.id, Cert, n.cert);
    assert b in t3.blobs && t3.blobs[b] == t.blobs[b];
  }

  lemma CommitCreatesOnly(t: Tables, op: Op, k: int)
    requires !op.CollectGarbage?
    requires k !in t.keys && Created(op) != Some(k)
    ensures k !in Apply(t, op).tables.keys
  {
    hide LoadComponent, LoadAccessTuple, RowsAt, MetaOf, NextBlobId;
    match op
    case StoreNewKey(key, n) =>
      InsertBlobsFrame(AddKey(t, n.id, NewEntry(n.kt, key.domain, key.nspace, None, Existing, n.kmUuid)), n);
    case _ =>
  }

  lemma GarbageStays(t: Tables, op: Op, b: int)
    requires !op.CollectGarbage? && NoLeftoverBlobs(t, op)
    requires GarbageKeyBlob(t, b)
    ensures GarbageKeyBlob(Apply(t, op).tables, b)
  {
    hide Apply;
    var u := Apply(t, op).tables;
    CommitKeepsKeyBlobs(t, op, b);
    if t.blobs[b].keyId !in t.keys {
      CommitCreatesOnly(t, op, t.blobs[b].keyId);
    } else {
      var c :| c in t.blobs && SameSlot(t.blobs[c], t.blobs[b]) && c > b;
      CommitKeepsKeyBlobs(t, op, c);
    }
  }

  lemma CommitKeepsLists(t: Tables, op: Op, g: GcState)
    requires !op.CollectGarbage? && NoLeftoverBlobs(t, op)
    requires ListsGarbage(t, g)
    ensures ListsGarbage(Apply(t, op).tables, g)
  {
    hide Apply, Garbage;
    forall b | GarbageKeyBlob(t, b)
      ensures GarbageKeyBlob(Apply(t, op).tables, b)
    {
      GarbageStays(t, op, b);
    }
  }

  // ---------------------------------------------------------------------------------------------
  // One step of the collector

  /** Take the last superseded blob and count it as deleted, whatever becomes of invalidating it. */
  function Pop(g: GcState): GcState {
    if g.superseded == [] then g
    else GcState(g.deleted + [g.superseded[|g.superseded| - 1].id], g.superseded[..|g.superseded| - 1])
  }

  /** `process_one_key`, on the tables. */
  function ProcessTables(t: Tables, g: GcState, batch: seq<int>): Tables {
    if g.superseded == [] then Collect(t, g.deleted, batch) else t
  }

  /** `process_one_key`, on the lists. */
  ghost function ProcessLists(t: Tables, g: GcState, batch: seq<int>): GcState
    requires g.superseded == [] ==> ValidBatch(Swept(t, g.deleted), batch)
  {
    if g.superseded == [] then
      assert forall i :: 0 <= i < |batch| ==> batch[i] in Elements(batch);
      Pop(GcState([], Entries(Swept(t, g.deleted), batch)))
    else Pop(g)
  }

  /** The blob `process_one_key` tries to invalidate: the one it takes, if its metadata names a KeyMint instance. */
  ghost function Attempt(t: Tables, g: GcState, batch: seq<int>): Option<Entry>
    requires g.superseded == [] ==> ValidBatch(Swept(t, g.deleted), batch)
  {
    assert forall i :: 0 <= i < |batch| ==> batch[i] in Elements(batch);
    var es := if g.superseded == [] then Entries(Swept(t, g.deleted), batch) else g.superseded;
    if es == [] || TAG_KM_UUID !in es[|es| - 1].meta then None else Some(es[|es| - 1])
  }

  lemma ProcessKeepsInv(t: Tables, g: GcState, batch: seq<int>)
    requires Inv(t)
    ensures Inv(ProcessTables(t, g, batch))
  {
    hide Inv, Collect;
    if g.superseded == [] {
      CollectKeepsInv(t, g.deleted, batch);
    }
  }

  lemma PopKeepsLists(t: Tables, g: GcState)
    requires forall b :: b in g.deleted ==> GarbageKeyBlob(t, b)
    requires forall b :: b in Ids(g.superseded) ==> GarbageKeyBlob(t, b)
    requires Distinct(g.deleted + Ids(g.superseded))
    ensures ListsGarbage(t, Pop(g))
  {
    hide GarbageKeyBlob;
    if g.superseded != [] {
      var n := |g.superseded| - 1;
      var ids := Ids(g.superseded);
      assert Ids(g.superseded[..n]) == ids[..n];
      var before, after := g.deleted + ids, g.deleted + [ids[n]] + ids[..n];
      forall i, j | 0 <= i < j < |after|
        ensures after[i] != after[j]
      {
        var d := |g.deleted|;
        var i' := if i < d then i else if i == d then d + n else i - 1;
        var j' := if j < d then j else if j == d then d + n else j - 1;
        assert before[i'] == after[i] && before[j'] == after[j];
      }
    }
  }

  lemma ProcessKeepsLists(t: Tables, g: GcState, batch: seq<int>)
    requires ListsGarbage(t, g)
    requires g.superseded == [] ==> ValidBatch(Swept(t, g.deleted), batch)
    ensures ListsGarbage(ProcessTables(t, g, batch), ProcessLists(t, g, batch))
  {
    if g.superseded == [] {
      var u := Swept(t, g.deleted);
      assert forall i :: 0 <= i < |batch| ==> batch[i] in Elements(batch);
      if batch != [] {
        assert [] + batch == batch;
        PopKeepsLists(u, GcState([], Entries(u, batch)));
      }
    } else {
      PopKeepsLists(t, g);
    }
  }

  /** A step that ends with nothing marked deleted has left the database clean. */
  lemma ProcessFinishes(t: Tables, g: GcState, batch: seq<int>)
    requires g.superseded == [] ==> ValidBatch(Swept(t, g.deleted), batch)
    requires ProcessLists(t, g, batch).deleted == []
    ensures Clean(ProcessTables(t, g, batch)) && ProcessLists(t, g, batch) == IDLE
  {
    var u := Swept(t, g.deleted);
    assert batch == [] && GarbageKeyBlobs(u) == {};
    PurgedIsClean(u);
  }

  /** Once the keys are swept and no key blob is garbage, dropping the rest leaves a clean database. */
  lemma PurgedIsClean(u: Tables)
    requires UnreferencedKeys(u) == {} && GarbageKeyBlobs(u) == {}
    ensures Clean(DropBlobs(u, OtherGarbage(u)))
  {
    var v := DropBlobs(u, OtherGarbage(u));
    forall k | k in v.keys
      ensures v.keys[k].state != Unreferenced
    {
      assert k !in UnreferencedKeys(u);
    }
    forall b | b in v.blobs
      ensures !Garbage(v, b)
    {
      assert b !in GarbageKeyBlobs(u) && b !in OtherGarbage(u);
    }
  }

  // ---------------------------------------------------------------------------------------------
  // Without new commits, n garbage key blobs are drained in n + 1 steps

  /** Key blobs that are garbage once unreferenced keys are gone, and that no step has taken yet. */
  function Remaining(t: Tables, g: GcState): set<int> {
    GarbageKeyBlobs(CleanupUnreferenced(t)) - Elements(g.deleted)
  }

  /** Deleting garbage makes nothing else garbage, and rescues nothing. */
  lemma SweptGarbage(t: Tables, g: GcState)
    requires forall b :: b in g.deleted ==> GarbageKeyBlob(t, b)
    ensures GarbageKeyBlobs(Swept(t, g.deleted)) == Remaining(t, g)
    ensures UnreferencedKeys(Swept(t, g.deleted)) == {}
  {
    var c := CleanupUnreferenced(t);
    var u := Swept(t, g.deleted);
    assert u.keys == c.keys && u.blobs == c.blobs - Elements(g.deleted);
    forall b | b in u.blobs && b in GarbageKeyBlobs(c)
      ensures b in GarbageKeyBlobs(u)
    {
      if c.blobs[b].keyId in c.keys {
        var slot := BlobsOf(c, c.blobs[b].keyId, KeyBlob);
        var d :| d in c.blobs && SameSlot(c.blobs[d], c.blobs[b]) && d > b;
        assert d in slot;
        var m := Max(slot);
        assert m !in g.deleted by {
          assert forall d :: d in t.blobs && SameSlot(t.blobs[d], t.blobs[m]) ==> d in slot;
        }
        assert m in u.blobs && SameSlot(u.blobs[m], u.blobs[b]);
      }
    }
  }

  /** A step takes one remaining blob, or finds none and cleans up the rest. */
  lemma StepDrains(t: Tables, g: GcState, batch: seq<int>)
    requires ListsGarbage(t, g)
    requires g.superseded == [] ==> ValidBatch(Swept(t, g.deleted), batch)
    ensures var t', g' := ProcessTables(t, g, batch), ProcessLists(t, g, batch);
      if Remaining(t, g) == {} then g' == IDLE && Clean(t')
      else g'.deleted != [] && var x := g'.deleted[|g'.deleted| - 1];
           x in Remaining(t, g) && Remaining(t', g') == Remaining(t, g) - {x}
  {
    if g.superseded == [] {
      LoadingStepDrains(t, g, batch);
    } else {
      PoppingStepDrains(t, g);
    }
  }

  lemma CleanupKeepsGarbage(t: Tables, b: int)
    requires GarbageKeyBlob(t, b)
    ensures b in GarbageKeyBlobs(CleanupUnreferenced(t))
  {
    assert CleanupUnreferenced(t).blobs == t.blobs;
  }

  lemma PoppingStepDrains(t: Tables, g: GcState)
    requires ListsGarbage(t, g) && g.superseded != []
    ensures Pop(g).deleted != [] && var x := Pop(g).deleted[|g.deleted|];
      x in Remaining(t, g) && Remaining(t, Pop(g)) == Remaining(t, g) - {x}
  {
    hide GarbageKeyBlobs, CleanupUnreferenced;
    var ids := Ids(g.superseded);
    var x := ids[|ids| - 1];
    assert GarbageKeyBlob(t, x);
    CleanupKeepsGarbage(t, x);
    var all := g.deleted + ids;
    assert all[|all| - 1] == x && forall i :: 0 <= i < |g.deleted| ==> all[i] == g.deleted[i];
    assert x !in g.deleted;
    assert Elements(Pop(g).deleted) == Elements(g.deleted) + {x};
  }

  lemma LoadingStepDrains(t: Tables, g: GcState, batch: seq<int>)
    requires ListsGarbage(t, g) && g.superseded == [] && ValidBatch(Swept(t, g.deleted), batch)
    ensures var t', g' := ProcessTables(t, g, batch), ProcessLists(t, g, batch);
      if Remaining(t, g) == {} then g' == IDLE && Clean(t')
      else g'.deleted != [] && var x := g'.deleted[|g'.deleted| - 1];
           x in Remaining(t, g) && Remaining(t', g') == Remaining(t, g) - {x}
  {
    hide Garbage, Swept, OtherGarbage, CleanupUnreferenced;
    SweptGarbage(t, g);
    var u := Swept(t, g.deleted);
    if Remaining(t, g) == {} {
      assert batch == [];
      PurgedIsClean(u);
    } else {
      assert |Remaining(t, g)| > 0 && batch != [];
      var x := batch[|batch| - 1];
      assert forall i :: 0 <= i < |batch| ==> batch[i] in Elements(batch);
      var g' := ProcessLists(t, g, batch);
      assert Ids(Entries(u, batch))[|batch| - 1] == x;
      assert g'.deleted == [x];
      SweptIsFixed(u);
      assert Elements(g'.deleted) == {x};
    }
  }

  lemma SweptIsFixed(u: Tables)
    requires UnreferencedKeys(u) == {}
    ensures GarbageKeyBlobs(CleanupUnreferenced(u)) == GarbageKeyBlobs(u)
  {
    assert u.keys - {} == u.keys;
    assert CleanupUnreferenced(u).keys == u.keys && CleanupUnreferenced(u).blobs == u.blobs;
    forall b | b in u.blobs
      ensures Garbage(CleanupUnreferenced(u), b) == Garbage(u, b)
    {
    }
  }

  // ---------------------------------------------------------------------------------------------
  // A step is never stuck: the query always has a result

  lemma {:induction false} SomeOf(s: set<int>, n: nat) returns (r: seq<int>)
    requires n <= |s|
    ensures Distinct(r) && Elements(r) <= s && |r| == n
  {
    r := [];
    if n > 0 {
      var x := Pick(s);
      r := SomeOf(s - {x}, n - 1);
      assert x !in Elements(r);
      ElementsOfSum(r, [x]);
      r := r + [x];
    }
  }

  lemma BatchExists(t: Tables) returns (batch: seq<int>)
    ensures ValidBatch(t, batch)
  {
    var garbage := GarbageKeyBlobs(t);
    batch := SomeOf(garbage, if |garbage| < GC_BATCH then |garbage| else GC_BATCH);
  }

  // ---------------------------------------------------------------------------------------------
  // Runs of collector steps alone

  /** Each step but the first is scheduled because the one before marked a blob deleted. The run may go on. */
  ghost predicate IsDrain(run: seq<(Tables, GcState)>, batches: seq<seq<int>>) {
    && |run| == |batches| + 1
    && (forall i :: 0 <= i < |batches| ==> DrainStep(run[i], batches[i], run[i + 1]))
    && (forall i :: 0 < i < |batches| ==> run[i].1.deleted != [])
  }

  ghost predicate DrainStep(before: (Tables, GcState), batch: seq<int>, after: (Tables, GcState)) {
    var (t, g) := before;
    && (g.superseded == [] ==> ValidBatch(Swept(t, g.deleted), batch))
    && after == (ProcessTables(t, g, batch), ProcessLists(t, g, batch))
  }

  /** No further step is scheduled. */
  predicate Ended(run: seq<(Tables, GcState)>)
    requires |run| > 0
  {
    run[|run| - 1].1.deleted == []
  }

  /** The blob that step `i` of a drain takes and marks deleted, if it takes one. */
  function Taken(run: seq<(Tables, GcState)>, i: nat): Option<int>
    requires i + 1 < |run|
  {
    var d := run[i + 1].1.deleted;
    if d == [] then None else Some(d[|d| - 1])
  }

  /** A drain takes remaining blobs only, none twice, and cannot go on for ever: it has ended exactly when it has made one step more than blobs remained. */
  lemma {:induction false} DrainFrom(run: seq<(Tables, GcState)>, batches: seq<seq<int>>, i: nat)
    requires IsDrain(run, batches) && i < |batches|
    requires ListsGarbage(run[i].0, run[i].1)
    ensures |batches| - i <= |Remaining(run[i].0, run[i].1)| + 1
    ensures Ended(run) <==> |batches| - i == |Remaining(run[i].0, run[i].1)| + 1
    ensures forall j :: i <= j < |batches| && Taken(run, j).Some? ==> Taken(run, j).value in Remaining(run[i].0, run[i].1)
    ensures forall j, l :: i <= j < l < |batches| && Taken(run, j).Some? ==> Taken(run, j) != Taken(run, l)
    ensures Ended(run) ==> forall x :: x in Remaining(run[i].0, run[i].1) ==> exists j :: i <= j < |batches| && Taken(run, j) == Some(x)
    ensures Ended(run) ==> Clean(run[|batches|].0) && run[|batches|].1 == IDLE
    decreases |batches| - i
  {
    hide Remaining, ProcessTables, ProcessLists, ListsGarbage, ValidBatch, Swept, Clean;
    var (t, g) := run[i];
    assert DrainStep(run[i], batches[i], run[i + 1]);
    StepDrains(t, g, batches[i]);
    var rest := Remaining(t, g);
    if rest != {} {
      var x := Taken(run, i).value;
      assert |rest - {x}| == |rest| - 1;
      if i + 1 < |batches| {
        ProcessKeepsLists(t, g, batches[i]);
        DrainFrom(run, batches, i + 1);
        forall y | Ended(run) && y in rest
          ensures exists j :: i <= j < |batches| && Taken(run, j) == Some(y)
        {
          if y != x {
            assert y in Remaining(run[i + 1].0, run[i + 1].1);
            var j :| i + 1 <= j < |batches| && Taken(run, j) == Some(y);
          } else {
            assert Taken(run, i) == Some(y);
          }
        }
      }
    } else {
      assert i + 1 == |batches|;
    }
  }

  /**
    From empty lists and without new commits, the collector takes at most one step more than there
    are garbage key blobs. It stops exactly after that many steps, and then it has taken each of
    them exactly once and left the database clean.
   */
  lemma DrainsInOneStepMore(run: seq<(Tables, GcState)>, batches: seq<seq<int>>)
    requires IsDrain(run, batches) && batches != [] && run[0].1 == IDLE
    ensures var garbage := GarbageKeyBlobs(CleanupUnreferenced(run[0].0));
      && |batches| <= |garbage| + 1
      && (Ended(run) <==> |batches| == |garbage| + 1)
      && (forall j :: 0 <= j < |batches| && Taken(run, j).Some? ==> Taken(run, j).value in garbage)
      && (forall j, l :: 0 <= j < l < |batches| && Taken(run, j).Some? ==> Taken(run, j) != Taken(run, l))
      && (Ended(run) ==> forall x :: x in garbage ==> exists j :: 0 <= j < |batches| && Taken(run, j) == Some(x))
    ensures Ended(run) ==> Clean(run[|batches|].0) && run[|batches|].1 == IDLE
  {
    hide GarbageKeyBlobs, Clean, ValidBatch, Swept;
    assert Remaining(run[0].0, run[0].1) == GarbageKeyBlobs(CleanupUnreferenced(run[0].0));
    DrainFrom(run, batches, 0);
  }

  /** A drain that has not ended can go on, so one that ends always exists. */
  lemma DrainGoesOn(run: seq<(Tables, GcState)>, batches: seq<seq<int>>) returns (batch: seq<int>, next: (Tables, GcState))
    requires IsDrain(run, batches) && (batches == [] || !Ended(run))
    ensures IsDrain(run + [next], batches + [batch])
  {
    var (t, g) := run[|batches|];
    batch := BatchExists(Swept(t, g.deleted));
    next := (ProcessTables(t, g, batch), ProcessLists(t, g, batch));
    hide ProcessTables, ProcessLists, ValidBatch, Swept;
    forall i | 0 <= i < |batches + [batch]|
      ensures DrainStep((run + [next])[i], (batches + [batch])[i], (run + [next])[i + 1])
    {
      if i < |batches| {
        assert DrainStep(run[i], batches[i], run[i + 1]);
      }
    }
  }

  lemma {:induction false} DrainEnds(run: seq<(Tables, GcState)>, batches: seq<seq<int>>)
    returns (longer: seq<(Tables, GcState)>, all: seq<seq<int>>)
    requires IsDrain(run, batches) && ListsGarbage(run[0].0, run[0].1)
    ensures IsDrain(longer, all) && run <= longer && all != [] && Ended(longer)
    decreases |Remaining(run[0].0, run[0].1)| + 1 - |batches|
  {
    longer, all := run, batches;
    hide DrainStep, Remaining, ListsGarbage;
    if batches == [] || !Ended(run) {
      if batches != [] {
        DrainFrom(run, batches, 0);
      }
      var batch, next := DrainGoesOn(run, batches);
      longer, all := DrainEnds(run + [next], batches + [batch]);
    }
  }

  // ---------------------------------------------------------------------------------------------
  // What is handed to the invalidation attempt

  /** The blobs still there, and those on the list, are as the tables said at the start. */
  ghost predicate Unaltered(t0: Tables, t: Tables, g: GcState) {
    && (forall b :: b in t.blobs ==> b in t0.blobs && t.blobs[b] == t0.blobs[b] && MetaOf(t.blobMeta, b) == MetaOf(t0.blobMeta, b))
    && (forall i :: 0 <= i < |g.superseded| ==> ReadFrom(t0, g.superseded[i]))
  }

  lemma ProcessKeepsUnaltered(t0: Tables, t: Tables, g: GcState, batch: seq<int>)
    requires Unaltered(t0, t, g)
    requires g.superseded == [] ==> ValidBatch(Swept(t, g.deleted), batch)
    ensures Unaltered(t0, ProcessTables(t, g, batch), ProcessLists(t, g, batch))
  {
    hide OtherGarbage, Garbage, UnreferencedKeys;
    if g.superseded == [] {
      var u := Swept(t, g.deleted);
      assert forall i :: 0 <= i < |batch| ==> batch[i] in Elements(batch);
      var es := Entries(u, batch);
      assert forall i :: 0 <= i < |es| ==> ReadFrom(u, es[i]) && es[i].id in u.blobs;
    }
  }

  /** What a step attempts: the blob it takes, if the metadata stored with it names a KeyMint instance, and otherwise nothing. */
  lemma StepAttempts(t0: Tables, t: Tables, g: GcState, batch: seq<int>)
    requires Unaltered(t0, t, g)
    requires g.superseded == [] ==> ValidBatch(Swept(t, g.deleted), batch)
    ensures var d := ProcessLists(t, g, batch).deleted;
      if d == [] then Attempt(t, g, batch) == None
      else var x := d[|d| - 1];
        x in t0.blobs && Attempt(t, g, batch) == if TAG_KM_UUID in MetaOf(t0.blobMeta, x) then Some(Entry(x, t0.blobs[x].blob, MetaOf(t0.blobMeta, x))) else None
  {
    hide Garbage;
    if g.superseded == [] && batch != [] {
      var u := Swept(t, g.deleted);
      assert forall i :: 0 <= i < |batch| ==> batch[i] in Elements(batch);
      var e := Entries(u, batch)[|batch| - 1];
      assert ReadFrom(u, e);
    }
  }

  /** Step `i` of a drain attempts to invalidate the blob it takes exactly if the blob's metadata names a KeyMint instance. */
  lemma {:induction false} DrainAttempts(run: seq<(Tables, GcState)>, batches: seq<seq<int>>, i: nat)
    requires IsDrain(run, batches) && i < |batches| && run[0].1 == IDLE
    ensures Unaltered(run[0].0, run[i].0, run[i].1)
    ensures var t0 := run[0].0;
      Attempt(run[i].0, run[i].1, batches[i]) ==
        match Taken(run, i)
        case None => None
        case Some(x) =>
          if x in t0.blobs && TAG_KM_UUID in MetaOf(t0.blobMeta, x) then Some(Entry(x, t0.blobs[x].blob, MetaOf(t0.blobMeta, x))) else None
    ensures Taken(run, i).Some? ==> Taken(run, i).value in run[0].0.blobs
  {
    var t0 := run[0].0;
    if i > 0 {
      DrainAttempts(run, batches, i - 1);
      assert DrainStep(run[i - 1], batches[i - 1], run[i]);
      ProcessKeepsUnaltered(t0, run[i - 1].0, run[i - 1].1, batches[i - 1]);
    }
    assert DrainStep(run[i], batches[i], run[i + 1]);
    StepAttempts(t0, run[i].0, run[i].1, batches[i]);
  }
}
